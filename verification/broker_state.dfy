/** Authoritative Broker state, its commands and replies, and the index-free meaning of a command.

    `Step` says what every command does to the authoritative maps alone.  It never looks at a heap
    or a counter: claim takes the least queued Task, prune the first completed ones, reap the first
    stale members.  The machine with indexes is proved to compute exactly this. */
module BrokerState {
  import opened Order
  import opened Tasks
  import opened Groups

  datatype State = State(
    term: nat, revision: nat, namespaces: map<nat, nat>, tasks: map<nat, Task>, groups: map<nat, Group>)

  const EmptyState := State(1, 0, map[], map[], map[])

  datatype Command =
    | EnsureNamespace(ns: nat, maxNamespaces: nat)
    | PublishTask(ns: nat, task: nat, objective: nat, createdAt: nat, maxTasks: nat)
    | EnsureGroup(ns: nat, group: nat, maxGroups: nat)
    | JoinGroup(group: nat, member: nat, capabilities: set<nat>, now: nat, maxMembers: nat)
    | Heartbeat(group: nat, member: nat, expectedGeneration: nat, now: nat)
    | LeaveGroup(group: nat, member: nat, expectedGeneration: nat)
    | ReapStaleMembers(staleBefore: nat, maxReaped: nat)
    | ClaimTask(group: nat, member: nat, expectedTerm: nat, expectedGeneration: nat,
                lease: nat, now: nat, duration: nat)
    | RenewLease(task: nat, group: nat, member: nat, expectedTerm: nat, expectedGeneration: nat, expectedEpoch: nat,
                 lease: nat, now: nat, duration: nat)
    | CompleteTask(task: nat, group: nat, member: nat, expectedTerm: nat, expectedGeneration: nat, expectedEpoch: nat,
                   lease: nat, result: nat, completedAt: nat)
    | PruneCompleted(completedBefore: nat, maxPruned: nat)
    | AdvanceTerm(expectedTerm: nat, newTerm: nat)

  datatype Capacity = NamespaceCapacity | TaskCapacity | GroupCapacity | ReapCapacity | PruneCapacity

  datatype Error =
    | InvalidCapacity(capacity: Capacity) | CapacityExceeded(capacity: Capacity, max: nat)
    | NamespaceNotFound(ns: nat) | TaskConflict(task: nat) | TaskNotFound(task: nat) | LeaseIdConflict(lease: nat)
    | StaleTerm(expected: nat, actual: nat) | NewTermNotGreater(current: nat, proposed: nat)
    | TaskCountUnderflow(ns: nat) | TimestampOverflow | TaskTransition(taskError: TaskError)
    | GroupConflict(group: nat) | GroupNotFound(group: nat) | GroupTransition(groupError: GroupError)
    | CounterOverflow

  datatype Meta = Meta(term: nat, revision: nat)

  datatype Reply =
    | NamespaceReply(meta: Meta, ns: nat, nsRevision: nat)
    | PublishedReply(meta: Meta, task: nat, taskRevision: nat, status: TaskStatus)
    | GroupReply(meta: Meta, group: nat, generation: nat, groupRevision: nat, members: nat)
    | HeartbeatReply(meta: Meta, group: nat, member: nat, generation: nat, memberRevision: nat)
    | ReapedReply(meta: Meta, reaped: nat, affectedGroups: nat)
    | ClaimReply(meta: Meta, claimed: Option<nat>, objective: Option<nat>, claimedRevision: Option<nat>,
                 leaseId: Option<nat>, leaseEpoch: Option<nat>, expiresAt: Option<nat>, generation: nat)
    | RenewedReply(meta: Meta, task: nat, taskRevision: nat, lease: nat, epoch: nat, deadline: nat, generation: nat)
    | CompletedReply(meta: Meta, task: nat, taskRevision: nat, status: TaskStatus)
    | PrunedReply(meta: Meta, pruned: nat)
    | TermReply(meta: Meta)

  /** The records a command changed, as handed to the durable repository. */
  datatype Changes = Changes(namespaces: set<nat>, tasks: set<nat>, deleted: set<nat>, groups: set<nat>)

  const NoChanges := Changes({}, {}, {}, {})

  datatype Outcome = Outcome(state: State, changes: Changes, reply: Result<Reply, Error>)

  function MetaOf(s: State): Meta {
    Meta(s.term, s.revision)
  }

  function Rejected(s: State, e: Error): Outcome {
    Outcome(s, NoChanges, Err(e))
  }

  function GroupReplyOf(s: State, group: nat): Reply
    requires group in s.groups
  {
    var g := s.groups[group];
    GroupReply(MetaOf(s), group, g.generation, g.revision, |g.consumers|)
  }

  function EnsureNamespaceStep(s: State, ns: nat, max: nat): Outcome {
    if ns in s.namespaces then Outcome(s, NoChanges, Ok(NamespaceReply(MetaOf(s), ns, s.namespaces[ns])))
    else if max == 0 then Rejected(s, InvalidCapacity(NamespaceCapacity))
    else if |s.namespaces| >= max then Rejected(s, CapacityExceeded(NamespaceCapacity, max))
    else if s.revision >= U64_MAX then Rejected(s, CounterOverflow)
    else
      var s' := s.(namespaces := s.namespaces[ns := 1], revision := s.revision + 1);
      Outcome(s', NoChanges.(namespaces := {ns}), Ok(NamespaceReply(MetaOf(s'), ns, 1)))
  }

  /** `count` is the number of Tasks retained in the namespace, however the caller knows it. */
  function PublishStep(s: State, ns: nat, task: nat, objective: nat, createdAt: nat, max: nat, count: nat): Outcome {
    if ns !in s.namespaces then Rejected(s, NamespaceNotFound(ns))
    else if task in s.tasks then
      var t := s.tasks[task];
      if t.ns != ns || t.objective != objective then Rejected(s, TaskConflict(task))
      else Outcome(s, NoChanges, Ok(PublishedReply(MetaOf(s), task, t.revision, Status(t))))
    else if max == 0 then Rejected(s, InvalidCapacity(TaskCapacity))
    else if count >= max then Rejected(s, CapacityExceeded(TaskCapacity, max))
    else if s.revision >= U64_MAX then Rejected(s, CounterOverflow)
    else
      var t := NewTask(ns, objective, createdAt);
      var s' := s.(tasks := s.tasks[task := t], revision := s.revision + 1);
      Outcome(s', NoChanges.(tasks := {task}), Ok(PublishedReply(MetaOf(s'), task, t.revision, Status(t))))
  }

  function EnsureGroupStep(s: State, ns: nat, group: nat, max: nat, count: nat): Outcome {
    if ns !in s.namespaces then Rejected(s, NamespaceNotFound(ns))
    else if group in s.groups then
      if s.groups[group].ns != ns then Rejected(s, GroupConflict(group))
      else Outcome(s, NoChanges, Ok(GroupReplyOf(s, group)))
    else if max == 0 then Rejected(s, InvalidCapacity(GroupCapacity))
    else if count >= max then Rejected(s, CapacityExceeded(GroupCapacity, max))
    else if s.revision >= U64_MAX then Rejected(s, CounterOverflow)
    else
      var s' := s.(groups := s.groups[group := NewGroup(ns)], revision := s.revision + 1);
      Outcome(s', NoChanges.(groups := {group}), Ok(GroupReplyOf(s', group)))
  }

  function JoinStep(s: State, group: nat, member: nat, capabilities: set<nat>, now: nat, max: nat): Outcome {
    if s.revision >= U64_MAX then Rejected(s, CounterOverflow)
    else if group !in s.groups then Rejected(s, GroupNotFound(group))
    else
      match Groups.JoinGroup(s.groups[group], member, capabilities, now, max)
      case Err(e) => Rejected(s, GroupTransition(e))
      case Ok((g, outcome)) =>
        if outcome.Unchanged? then Outcome(s, NoChanges, Ok(GroupReplyOf(s, group)))
        else
          var s' := s.(groups := s.groups[group := g], revision := s.revision + 1);
          Outcome(s', NoChanges.(groups := {group}), Ok(GroupReplyOf(s', group)))
  }

  function HeartbeatStep(s: State, group: nat, member: nat, expectedGeneration: nat, now: nat): Outcome {
    if s.revision >= U64_MAX then Rejected(s, CounterOverflow)
    else if group !in s.groups then Rejected(s, GroupNotFound(group))
    else
      match HeartbeatGroup(s.groups[group], member, expectedGeneration, now)
      case Err(e) => Rejected(s, GroupTransition(e))
      case Ok((g, newer)) =>
        var s' := if newer then s.(groups := s.groups[group := g], revision := s.revision + 1) else s;
        var revision := if member in g.consumers then g.consumers[member].revision else 0;
        Outcome(s', if newer then NoChanges.(groups := {group}) else NoChanges,
                Ok(HeartbeatReply(MetaOf(s'), group, member, g.generation, revision)))
  }

  function AdvanceTermStep(s: State, expectedTerm: nat, newTerm: nat): Outcome {
    if s.term != expectedTerm then Rejected(s, StaleTerm(expectedTerm, s.term))
    else if newTerm <= s.term then Rejected(s, NewTermNotGreater(s.term, newTerm))
    else if s.revision >= U64_MAX then Rejected(s, CounterOverflow)
    else
      var s' := s.(term := newTerm, revision := s.revision + 1);
      Outcome(s', NoChanges, Ok(TermReply(MetaOf(s'))))
  }

  /** A claim, renewal or completion is admitted only from a current member at the current term. */
  function Admit(s: State, expectedTerm: nat, group: nat, member: nat, expectedGeneration: nat): Option<Error> {
    if s.term != expectedTerm then Some(StaleTerm(expectedTerm, s.term))
    else if group !in s.groups then Some(GroupNotFound(group))
    else if s.groups[group].generation != expectedGeneration then
      Some(GroupTransition(StaleGeneration(expectedGeneration, s.groups[group].generation)))
    else if member !in s.groups[group].consumers then Some(GroupTransition(MemberNotFound(member)))
    else None
  }

  function RenewStep(s: State, c: Command): Outcome
    requires c.RenewLease?
  {
    var refused := Admit(s, c.expectedTerm, c.group, c.member, c.expectedGeneration);
    if refused.Some? then Rejected(s, refused.value)
    else if c.now + c.duration > U64_MAX then Rejected(s, TimestampOverflow)
    else if s.revision >= U64_MAX then Rejected(s, CounterOverflow)
    else if c.task !in s.tasks then Rejected(s, TaskNotFound(c.task))
    else
      var fence := Fence(c.lease, c.member, c.group, c.expectedGeneration, c.expectedEpoch, c.now);
      match RenewTask(s.tasks[c.task], fence, c.now + c.duration)
      case Err(e) => Rejected(s, TaskTransition(e))
      case Ok(t) =>
        var s' := s.(tasks := s.tasks[c.task := t], revision := s.revision + 1);
        Outcome(s', NoChanges.(tasks := {c.task}),
                Ok(RenewedReply(MetaOf(s'), c.task, t.revision, c.lease,
                                Epoch(t), c.now + c.duration, c.expectedGeneration)))
  }

  function CompleteStep(s: State, c: Command): Outcome
    requires c.CompleteTask?
  {
    var refused := Admit(s, c.expectedTerm, c.group, c.member, c.expectedGeneration);
    if refused.Some? then Rejected(s, refused.value)
    else if s.revision >= U64_MAX then Rejected(s, CounterOverflow)
    else if c.task !in s.tasks then Rejected(s, TaskNotFound(c.task))
    else
      var fence := Fence(c.lease, c.member, c.group, c.expectedGeneration, c.expectedEpoch, c.completedAt);
      match Tasks.CompleteTask(s.tasks[c.task], fence, c.result)
      case Err(e) => Rejected(s, TaskTransition(e))
      case Ok((t, isNew)) =>
        var s' := if isNew then s.(tasks := s.tasks[c.task := t], revision := s.revision + 1) else s;
        Outcome(s', if isNew then NoChanges.(tasks := {c.task}) else NoChanges,
                Ok(CompletedReply(MetaOf(s'), c.task, t.revision, Status(t))))
  }

  // ---- What the indexes are for, said without them ----

  function InNamespace(tasks: map<nat, Task>, ns: nat): set<nat> {
    set t | t in tasks && tasks[t].ns == ns
  }

  function GroupsInNamespace(groups: map<nat, Group>, ns: nat): set<nat> {
    set g | g in groups && groups[g].ns == ns
  }

  /** The queued Tasks of a namespace, keyed by age. */
  function QueuedKeys(tasks: map<nat, Task>, ns: nat): set<Key> {
    set t | t in tasks && tasks[t].ns == ns && tasks[t].state.Queued? :: Key(tasks[t].createdAt, t, 0)
  }

  function ExpiredTasks(tasks: map<nat, Task>, ns: nat, now: nat): set<nat> {
    set t | t in tasks && tasks[t].ns == ns && tasks[t].state.Leased? && tasks[t].state.lease.expiresAt <= now
  }

  function HeldTasks(tasks: map<nat, Task>, group: nat, member: nat): set<nat> {
    set t | t in tasks && HeldBy(tasks[t], group, member)
  }

  predicate HeldBy(t: Task, group: nat, member: nat) {
    t.state.Leased? && t.state.lease.group == group && t.state.lease.owner == member
  }

  function LeaseHolders(tasks: map<nat, Task>, lease: nat): set<nat> {
    set t | t in tasks && tasks[t].state.Leased? && tasks[t].state.lease.leaseId == lease
  }

  function CompletedKeys(tasks: map<nat, Task>, cutoff: nat): set<Key> {
    set t | t in tasks && tasks[t].state.Completed? && tasks[t].state.done.completedAt <= cutoff
      :: Key(tasks[t].state.done.completedAt, t, 0)
  }

  /** Every stale member of every group, keyed by (heartbeat, group, member). */
  function StaleKeys(groups: map<nat, Group>, before: nat): set<Key> {
    set g, m | g in groups && m in groups[g].consumers && groups[g].consumers[m].heartbeatAt <= before
      :: Key(groups[g].consumers[m].heartbeatAt, g, m)
  }

  function AffectedGroups(keys: set<Key>): set<nat> {
    set k | k in keys :: k.id
  }

  function MembersOf(keys: set<Key>, group: nat): set<nat> {
    set k | k in keys && k.id == group :: k.tag
  }

  predicate AllLeased(tasks: map<nat, Task>, ids: set<nat>) {
    forall t | t in ids :: t in tasks && tasks[t].state.Leased?
  }

  /** Put every Task of `ids` back in the queue. */
  function RequeueAll(tasks: map<nat, Task>, ids: set<nat>): map<nat, Task>
    requires AllLeased(tasks, ids)
  {
    map t | t in tasks :: if t in ids then Requeued(tasks[t]) else tasks[t]
  }

  predicate CanRequeue(tasks: map<nat, Task>, ids: set<nat>) {
    forall t | t in ids && t in tasks :: tasks[t].revision < U64_MAX
  }

  function NoClaim(s: State, generation: nat): Reply {
    ClaimReply(MetaOf(s), None, None, None, None, None, None, generation)
  }

  function ClaimReplyOf(s: State, task: nat, t: Task, generation: nat): Reply {
    if t.state.Leased? then
      var l := t.state.lease;
      ClaimReply(MetaOf(s), Some(task), Some(t.objective), Some(t.revision), Some(l.leaseId), Some(l.epoch),
                 Some(l.expiresAt), generation)
    else NoClaim(s, generation)
  }

  /** Claim: requeue the namespace's expired leases, then lease the least queued Task, or change
      nothing.  A counter or deadline that cannot advance refuses the claim and changes nothing. */
  function ClaimStep(s: State, c: Command): Outcome
    requires c.ClaimTask?
  {
    var refused := Admit(s, c.expectedTerm, c.group, c.member, c.expectedGeneration);
    if refused.Some? then Rejected(s, refused.value)
    else if LeaseHolders(s.tasks, c.lease) != {} then
      var t := MinId(LeaseHolders(s.tasks, c.lease));
      if HeldBy(s.tasks[t], c.group, c.member) then
        Outcome(s, NoChanges, Ok(ClaimReplyOf(s, t, s.tasks[t], c.expectedGeneration)))
      else Rejected(s, LeaseIdConflict(c.lease))
    else
      var ns := s.groups[c.group].ns;
      var expired := ExpiredTasks(s.tasks, ns, c.now);
      if !CanRequeue(s.tasks, expired) then Rejected(s, TaskTransition(TaskCounterOverflow))
      else
        var tasks := RequeueAll(s.tasks, expired);
        var ready := QueuedKeys(tasks, ns);
        if ready == {} then Outcome(s, NoChanges, Ok(NoClaim(s, c.expectedGeneration)))
        else if c.now + c.duration > U64_MAX then Rejected(s, TimestampOverflow)
        else if s.revision >= U64_MAX then Rejected(s, CounterOverflow)
        else
          var t := MinKey(ready).id;
          var grant := Grant(c.lease, c.member, c.group, c.expectedGeneration, c.now + c.duration);
          match Tasks.ClaimTask(tasks[t], grant)
          case Err(e) => Rejected(s, TaskTransition(e))
          case Ok(leased) =>
            var s' := s.(tasks := tasks[t := leased], revision := s.revision + 1);
            Outcome(s', NoChanges.(tasks := expired + {t}), Ok(ClaimReplyOf(s', t, leased, c.expectedGeneration)))
  }

  function LeaveStep(s: State, group: nat, member: nat, expectedGeneration: nat): Outcome {
    var held := HeldTasks(s.tasks, group, member);
    if s.revision >= U64_MAX || !CanRequeue(s.tasks, held) then Rejected(s, CounterOverflow)
    else if group !in s.groups then Rejected(s, GroupNotFound(group))
    else
      match Groups.LeaveGroup(s.groups[group], member, expectedGeneration)
      case Err(e) => Rejected(s, GroupTransition(e))
      case Ok(g) =>
        var s' := s.(groups := s.groups[group := g], tasks := RequeueAll(s.tasks, held), revision := s.revision + 1);
        Outcome(s', NoChanges.(groups := {group}, tasks := held), Ok(GroupReplyOf(s', group)))
  }

  /** The Tasks leased to any of the selected (heartbeat, group, member) keys. */
  function HeldByAny(tasks: map<nat, Task>, selected: set<Key>): set<nat> {
    set t | t in tasks && tasks[t].state.Leased? &&
            tasks[t].state.lease.owner in MembersOf(selected, tasks[t].state.lease.group)
  }

  function ReapAll(groups: map<nat, Group>, selected: set<Key>): map<nat, Group> {
    map g | g in groups ::
      if g in AffectedGroups(selected) then Without(groups[g], MembersOf(selected, g)) else groups[g]
  }

  predicate CanAdvance(groups: map<nat, Group>, ids: set<nat>) {
    forall g | g in ids && g in groups :: groups[g].generation < U64_MAX && groups[g].revision < U64_MAX
  }

  /** Reap: the first `max` stale members over all groups leave at once, and their leases requeue. */
  function ReapStep(s: State, before: nat, max: nat): Outcome {
    if max == 0 then Rejected(s, InvalidCapacity(ReapCapacity))
    else
      var selected := FirstN(StaleKeys(s.groups, before), max);
      var affected := AffectedGroups(selected);
      var held := HeldByAny(s.tasks, selected);
      if selected == {} then Outcome(s, NoChanges, Ok(ReapedReply(MetaOf(s), 0, 0)))
      else if s.revision >= U64_MAX || !CanAdvance(s.groups, affected) || !CanRequeue(s.tasks, held) then
        Rejected(s, CounterOverflow)
      else
        var s' := s.(groups := ReapAll(s.groups, selected),
                    tasks := RequeueAll(s.tasks, held), revision := s.revision + 1);
        Outcome(s', NoChanges.(groups := affected, tasks := held), Ok(ReapedReply(MetaOf(s'), |selected|, |affected|)))
  }

  /** Prune: forget the first `max` Tasks completed at or before the cutoff. */
  function PruneStep(s: State, cutoff: nat, max: nat): Outcome {
    if max == 0 then Rejected(s, InvalidCapacity(PruneCapacity))
    else
      var doomed := Members(FirstN(CompletedKeys(s.tasks, cutoff), max));
      if doomed == {} then Outcome(s, NoChanges, Ok(PrunedReply(MetaOf(s), 0)))
      else if s.revision >= U64_MAX then Rejected(s, CounterOverflow)
      else
        var s' := s.(tasks := s.tasks - doomed, revision := s.revision + 1);
        Outcome(s', NoChanges.(deleted := doomed), Ok(PrunedReply(MetaOf(s'), |doomed|)))
  }

  function PublishSpec(s: State, c: Command): Outcome
    requires c.PublishTask?
  {
    PublishStep(s, c.ns, c.task, c.objective, c.createdAt, c.maxTasks, |InNamespace(s.tasks, c.ns)|)
  }

  function EnsureGroupSpec(s: State, c: Command): Outcome
    requires c.EnsureGroup?
  {
    EnsureGroupStep(s, c.ns, c.group, c.maxGroups, |GroupsInNamespace(s.groups, c.ns)|)
  }

  /** The meaning of every command on the authoritative state. */
  function Step(s: State, c: Command): Outcome {
    match c
    case EnsureNamespace(ns, max) => EnsureNamespaceStep(s, ns, max)
    case PublishTask(_, _, _, _, _) => PublishSpec(s, c)
    case EnsureGroup(_, _, _) => EnsureGroupSpec(s, c)
    case JoinGroup(g, m, capabilities, now, max) => JoinStep(s, g, m, capabilities, now, max)
    case Heartbeat(g, m, generation, now) => HeartbeatStep(s, g, m, generation, now)
    case LeaveGroup(g, m, generation) => LeaveStep(s, g, m, generation)
    case ReapStaleMembers(before, max) => ReapStep(s, before, max)
    case ClaimTask(_, _, _, _, _, _, _) => ClaimStep(s, c)
    case RenewLease(_, _, _, _, _, _, _, _, _) => RenewStep(s, c)
    case CompleteTask(_, _, _, _, _, _, _, _, _) => CompleteStep(s, c)
    case PruneCompleted(cutoff, max) => PruneStep(s, cutoff, max)
    case AdvanceTerm(expected, term) => AdvanceTermStep(s, expected, term)
  }
}
