/** The Broker machine as it is built: authoritative state plus the derived indexes, command by command.

    Every function here is total and follows the code in any machine, coherent or not, down to what a
    command leaves behind when it fails half way. */
module BrokerMachine {
  import opened Order
  import opened Tasks
  import opened Groups
  import opened BrokerState

  datatype Machine = Machine(
    state: State,
    ready: map<nat, multiset<Key>>,
    expirations: map<nat, multiset<Key>>,
    active: map<nat, nat>,
    held: map<(nat, nat), set<nat>>,
    completed: multiset<Key>,
    taskCounts: map<nat, nat>,
    groupCounts: map<nat, nat>,
    changes: Changes)

  const EmptyMachine := Machine(EmptyState, map[], map[], map[], map[], multiset{}, map[], map[], NoChanges)

  datatype Ran = Ran(m: Machine, reply: Result<Reply, Error>)

  /** What a multi-Task update did before it finished or failed. */
  datatype Swept = Swept(m: Machine, count: nat, failed: Option<Error>)

  function TakeOutcome(m: Machine, o: Outcome): Ran {
    Ran(m.(state := o.state, changes := o.changes), o.reply)
  }

  // ---- Index primitives ----

  function LeasesOf(held: map<(nat, nat), set<nat>>, key: (nat, nat)): set<nat> {
    if key in held then held[key] else {}
  }

  function AddHeld(held: map<(nat, nat), set<nat>>, key: (nat, nat), t: nat): map<(nat, nat), set<nat>> {
    held[key := LeasesOf(held, key) + {t}]
  }

  function RemoveHeld(held: map<(nat, nat), set<nat>>, key: (nat, nat), t: nat): map<(nat, nat), set<nat>> {
    if key !in held then held
    else if held[key] - {t} == {} then held - {key}
    else held[key := held[key] - {t}]
  }

  function ReadyKey(t: nat, task: Task): Key {
    Key(task.createdAt, t, 0)
  }

  function LeaseKey(t: nat, l: Lease): Key {
    Key(l.expiresAt, t, l.epoch)
  }

  /** Put one leased Task back in the queue of `ns`. */
  function RequeueOne(m: Machine, t: nat, ns: nat): Machine
    requires t in m.state.tasks && m.state.tasks[t].state.Leased?
  {
    var task := m.state.tasks[t];
    var l := task.state.lease;
    m.(state := m.state.(tasks := m.state.tasks[t := Requeued(task)]),
       active := m.active - {l.leaseId},
       held := RemoveHeld(m.held, (l.group, l.owner), t),
       ready := Push(m.ready, ns, ReadyKey(t, task)),
       changes := m.changes.(tasks := m.changes.tasks + {t}))
  }

  // ---- Claim ----

  /** An expiration entry counts only if it names the current lease exactly; older ones are stale. */
  predicate Matches(tasks: map<nat, Task>, k: Key) {
    k.id in tasks && tasks[k.id].state.Leased? && LeaseKey(k.id, tasks[k.id].state.lease) == k
  }

  function Drain(h: multiset<Key>, now: nat): multiset<Key>
    decreases |h|
  {
    if h == multiset{} || MinKey(Support(h)).at > now then h
    else Drain(h - multiset{MinKey(Support(h))}, now)
  }

  function Due(h: multiset<Key>, tasks: map<nat, Task>, now: nat): set<nat> {
    set k | k in h && k.at <= now && Matches(tasks, k) :: k.id
  }

  function RequeueExpired(m: Machine, ns: nat, ids: set<nat>, now: nat, count: nat): Swept
    decreases |ids|
  {
    if ids == {} then Swept(m, count, None)
    else
      var t := MinId(ids);
      if t !in m.state.tasks then RequeueExpired(m, ns, ids - {t}, now, count)
      else
        match RequeueIfExpired(m.state.tasks[t], now)
        case Err(e) => Swept(m, count, Some(TaskTransition(e)))
        case Ok((_, false)) => RequeueExpired(m, ns, ids - {t}, now, count)
        case Ok((_, true)) => RequeueExpired(RequeueOne(m, t, ns), ns, ids - {t}, now, count + 1)
  }

  function RecoverExpired(m: Machine, ns: nat, now: nat): Swept {
    if ns !in m.expirations then Swept(m, 0, None)
    else
      var h := m.expirations[ns];
      RequeueExpired(m.(expirations := m.expirations[ns := Drain(h, now)]), ns, Due(h, m.state.tasks, now), now, 0)
  }

  predicate IsQueued(tasks: map<nat, Task>, t: nat) {
    t in tasks && tasks[t].state.Queued?
  }

  /** Pop entries until one names a queued Task. */
  function PopReady(h: multiset<Key>, tasks: map<nat, Task>): (multiset<Key>, Option<nat>)
    decreases |h|
  {
    if h == multiset{} then (h, None)
    else
      var k := MinKey(Support(h));
      var rest := h - multiset{k};
      if IsQueued(tasks, k.id) then (rest, Some(k.id)) else PopReady(rest, tasks)
  }

  /** The popped Task has already left the ready heap when the deadline and counters are checked. */
  function GrantLease(m: Machine, c: Command, ns: nat, t: nat): Ran
    requires c.ClaimTask?
  {
    if c.now + c.duration > U64_MAX then Ran(m, Err(TimestampOverflow))
    else if m.state.revision >= U64_MAX then Ran(m, Err(CounterOverflow))
    else if t !in m.state.tasks then Ran(m, Err(TaskNotFound(t)))
    else
      match Tasks.ClaimTask(m.state.tasks[t],
                            Grant(c.lease, c.member, c.group, c.expectedGeneration, c.now + c.duration))
      case Err(e) => Ran(m, Err(TaskTransition(e)))
      case Ok(leased) =>
        var s' := m.state.(tasks := m.state.tasks[t := leased], revision := m.state.revision + 1);
        Ran(m.(state := s',
               active := m.active[c.lease := t],
               held := AddHeld(m.held, (c.group, c.member), t),
               expirations := Push(m.expirations, ns, LeaseKey(t, leased.state.lease)),
               changes := m.changes.(tasks := m.changes.tasks + {t})),
            Ok(ClaimReplyOf(s', t, leased, c.expectedGeneration)))
  }

  function ClaimRun(m: Machine, c: Command): Ran
    requires c.ClaimTask?
  {
    var refused := Admit(m.state, c.expectedTerm, c.group, c.member, c.expectedGeneration);
    if refused.Some? then Ran(m, Err(refused.value))
    else if c.lease in m.active then
      var t := m.active[c.lease];
      if t !in m.state.tasks then Ran(m, Err(TaskNotFound(t)))
      else if HeldBy(m.state.tasks[t], c.group, c.member) then
        Ran(m, Ok(ClaimReplyOf(m.state, t, m.state.tasks[t], c.expectedGeneration)))
      else Ran(m, Err(LeaseIdConflict(c.lease)))
    else ClaimFresh(m, c, m.state.groups[c.group].ns)
  }

  /** A claim under a lease id that is not active: recover, pop, grant. */
  function ClaimFresh(m: Machine, c: Command, ns: nat): Ran
    requires c.ClaimTask?
  {
    var recovered := RecoverExpired(m, ns, c.now);
    if recovered.failed.Some? then Ran(recovered.m, Err(recovered.failed.value))
    else
      var (heap, popped) := PopReady(HeapAt(recovered.m.ready, ns), recovered.m.state.tasks);
      var m' := if ns in recovered.m.ready then recovered.m.(ready := recovered.m.ready[ns := heap]) else recovered.m;
      if popped.Some? then GrantLease(m', c, ns, popped.value)
      else if recovered.count == 0 then Ran(m', Ok(NoClaim(m'.state, c.expectedGeneration)))
      else if m'.state.revision >= U64_MAX then Ran(m', Err(CounterOverflow))
      else
        var s' := m'.state.(revision := m'.state.revision + 1);
        Ran(m'.(state := s'), Ok(NoClaim(s', c.expectedGeneration)))
  }

  // ---- Renew, complete, publish ----

  function RenewRun(m: Machine, c: Command): Ran
    requires c.RenewLease?
  {
    var o := RenewStep(m.state, c);
    if o.reply.Err? then TakeOutcome(m, o)
    else
      var task := o.state.tasks[c.task];
      TakeOutcome(m.(expirations := Push(m.expirations, task.ns, Key(c.now + c.duration, c.task, Epoch(task)))), o)
  }

  function CompleteRun(m: Machine, c: Command): Ran
    requires c.CompleteTask?
  {
    var o := CompleteStep(m.state, c);
    if o.reply.Err? || o.changes.tasks == {} then TakeOutcome(m, o)
    else
      TakeOutcome(m.(active := m.active - {c.lease},
                     held := RemoveHeld(m.held, (c.group, c.member), c.task),
                     completed := m.completed + multiset{Key(c.completedAt, c.task, 0)}), o)
  }

  function PublishRun(m: Machine, c: Command): Ran
    requires c.PublishTask?
  {
    var count := CountAt(m.taskCounts, c.ns);
    var o := PublishStep(m.state, c.ns, c.task, c.objective, c.createdAt, c.maxTasks, count);
    if o.reply.Err? || o.changes.tasks == {} then TakeOutcome(m, o)
    else
      TakeOutcome(m.(taskCounts := m.taskCounts[c.ns := count + 1],
                     ready := Push(m.ready, c.ns, Key(c.createdAt, c.task, 0))), o)
  }

  function EnsureGroupRun(m: Machine, c: Command): Ran
    requires c.EnsureGroup?
  {
    var count := CountAt(m.groupCounts, c.ns);
    var o := EnsureGroupStep(m.state, c.ns, c.group, c.maxGroups, count);
    if o.reply.Err? || o.changes.groups == {} then TakeOutcome(m, o)
    else TakeOutcome(m.(groupCounts := m.groupCounts[c.ns := count + 1]), o)
  }

  // ---- Leave and reap ----

  /** Every lease indexed under the member could advance its Task's revision. */
  predicate Preflight(m: Machine, group: nat, member: nat) {
    forall t | t in LeasesOf(m.held, (group, member)) ::
      t in m.state.tasks && HeldBy(m.state.tasks[t], group, member) ==> m.state.tasks[t].revision < U64_MAX
  }

  function RequeueHeld(m: Machine, group: nat, member: nat, ids: set<nat>): Swept
    decreases |ids|
  {
    if ids == {} then Swept(m, 0, None)
    else
      var t := MinId(ids);
      if t !in m.state.tasks || !HeldBy(m.state.tasks[t], group, member) then RequeueHeld(m, group, member, ids - {t})
      else if m.state.tasks[t].revision >= U64_MAX then Swept(m, 0, Some(TaskTransition(TaskCounterOverflow)))
      else RequeueHeld(RequeueOne(m, t, m.state.tasks[t].ns), group, member, ids - {t})
  }

  function RequeueMember(m: Machine, group: nat, member: nat): Swept {
    var key := (group, member);
    RequeueHeld(m.(held := m.held - {key}), group, member, LeasesOf(m.held, key))
  }

  /** After the member left group `g` and its leases were swept, the command itself commits. */
  function LeaveFinish(m: Machine, c: Command, g: Group, swept: Swept): Ran
    requires c.LeaveGroup?
  {
    if swept.failed.Some? then Ran(swept.m, Err(swept.failed.value))
    else
      var s' := swept.m.state.(revision := m.state.revision + 1);
      Ran(swept.m.(state := s', changes := swept.m.changes.(groups := swept.m.changes.groups + {c.group})),
          Ok(GroupReply(MetaOf(s'), c.group, g.generation, g.revision, |g.consumers|)))
  }

  function LeaveRun(m: Machine, c: Command): Ran
    requires c.LeaveGroup?
  {
    if m.state.revision >= U64_MAX || !Preflight(m, c.group, c.member) then Ran(m, Err(CounterOverflow))
    else if c.group !in m.state.groups then Ran(m, Err(GroupNotFound(c.group)))
    else
      match Groups.LeaveGroup(m.state.groups[c.group], c.member, c.expectedGeneration)
      case Err(e) => Ran(m, Err(GroupTransition(e)))
      case Ok(g) =>
        var left := m.(state := m.state.(groups := m.state.groups[c.group := g]));
        LeaveFinish(m, c, g, RequeueMember(left, c.group, c.member))
  }

  function KeysOf(selected: set<Key>, group: nat): set<Key> {
    set k | k in selected && k.id == group
  }

  /** Requeue the leases of members just removed from a group, oldest heartbeat first. */
  function RequeueRemoved(m: Machine, group: nat, removed: set<Key>): Swept
    decreases |removed|
  {
    if removed == {} then Swept(m, 0, None)
    else
      var k := MinKey(removed);
      var swept := RequeueMember(m, group, k.id);
      if swept.failed.Some? then swept else RequeueRemoved(swept.m, group, removed - {k})
  }

  datatype Turn = Turn(m: Machine, removed: set<Key>, failed: Option<Error>)

  /** One group's turn: reap it by the number of its selected members, then requeue their leases. */
  function ReapTurn(m: Machine, selected: set<Key>, g: nat, before: nat): Turn {
    if g !in m.state.groups then Turn(m, {}, Some(GroupNotFound(g)))
    else
      match ReapGroup(m.state.groups[g], before, |KeysOf(selected, g)|)
      case Err(e) => Turn(m, {}, Some(GroupTransition(e)))
      case Ok((rest, removed)) =>
        var swept := RequeueRemoved(m.(state := m.state.(groups := m.state.groups[g := rest])), g, removed);
        Turn(swept.m, removed, swept.failed)
  }

  datatype Reaped = Reaped(m: Machine, count: nat, affected: set<nat>, failed: Option<Error>)

  function ReapGroups(
    m: Machine, selected: set<Key>, groups: set<nat>, before: nat, count: nat, affected: set<nat>): Reaped
    decreases |groups|
  {
    if groups == {} then Reaped(m, count, affected, None)
    else
      var g := MinId(groups);
      var turn := ReapTurn(m, selected, g, before);
      if turn.failed.Some? then Reaped(turn.m, count, affected, turn.failed)
      else
        ReapGroups(turn.m, selected, groups - {g}, before, count + |turn.removed|,
                   if turn.removed == {} then affected else affected + {g})
  }

  function ReapFinish(m: Machine, reaped: Reaped): Ran {
    if reaped.failed.Some? then Ran(reaped.m, Err(reaped.failed.value))
    else if reaped.count == 0 then
      Ran(reaped.m, Ok(ReapedReply(MetaOf(reaped.m.state), reaped.count, |reaped.affected|)))
    else
      var s' := reaped.m.state.(revision := m.state.revision + 1);
      Ran(reaped.m.(state := s', changes := reaped.m.changes.(groups := reaped.m.changes.groups + reaped.affected)),
          Ok(ReapedReply(MetaOf(s'), reaped.count, |reaped.affected|)))
  }

  function ReapRun(m: Machine, before: nat, max: nat): Ran {
    if max == 0 then Ran(m, Err(InvalidCapacity(ReapCapacity)))
    else
      var selected := FirstN(StaleKeys(m.state.groups, before), max);
      if selected == {} then Ran(m, Ok(ReapedReply(MetaOf(m.state), 0, 0)))
      else if m.state.revision >= U64_MAX || !CanAdvance(m.state.groups, AffectedGroups(selected)) ||
              (exists k | k in selected :: !Preflight(m, k.id, k.tag)) then
        Ran(m, Err(CounterOverflow))
      else ReapFinish(m, ReapGroups(m, selected, AffectedGroups(selected), before, 0, {}))
  }

  // ---- Prune ----

  predicate CompletedMatch(tasks: map<nat, Task>, k: Key) {
    k.id in tasks && tasks[k.id].state.Completed? && tasks[k.id].state.done.completedAt == k.at
  }

  /** First pass, on a copy of the heap: which Tasks would go. */
  function Probe(h: multiset<Key>, tasks: map<nat, Task>, cutoff: nat, n: nat): seq<nat>
    decreases |h|
  {
    if n == 0 || h == multiset{} then []
    else
      var k := MinKey(Support(h));
      if k.at > cutoff then []
      else if CompletedMatch(tasks, k) then [k.id] + Probe(h - multiset{k}, tasks, cutoff, n - 1)
      else Probe(h - multiset{k}, tasks, cutoff, n)
  }

  function SelectedIn(tasks: map<nat, Task>, ids: seq<nat>, ns: nat): nat {
    if ids == [] then 0
    else (if ids[0] in tasks && tasks[ids[0]].ns == ns then 1 else 0) + SelectedIn(tasks, ids[1..], ns)
  }

  function Underflows(m: Machine, ids: seq<nat>): set<nat> {
    set t | t in ids && t in m.state.tasks &&
            CountAt(m.taskCounts, m.state.tasks[t].ns) < SelectedIn(m.state.tasks, ids, m.state.tasks[t].ns)
      :: m.state.tasks[t].ns
  }

  /** Second pass: delete `left` Tasks from the heap, the map and the counts. */
  function Destroy(m: Machine, left: nat, cutoff: nat, count: nat): Swept
    decreases |m.completed|
  {
    if left == 0 || m.completed == multiset{} then Swept(m, count, None)
    else
      var k := MinKey(Support(m.completed));
      if k.at > cutoff then Swept(m, count, None)
      else
        var popped := m.(completed := m.completed - multiset{k});
        if !CompletedMatch(m.state.tasks, k) then Destroy(popped, left, cutoff, count)
        else
          var ns := m.state.tasks[k.id].ns;
          var removed := popped.(state := m.state.(tasks := m.state.tasks - {k.id}));
          if ns !in m.taskCounts then Swept(removed, count, Some(TaskCountUnderflow(ns)))
          else
            var c := m.taskCounts[ns];
            Destroy(removed.(taskCounts := m.taskCounts[ns := if c > 0 then c - 1 else 0],
                             changes := m.changes.(deleted := m.changes.deleted + {k.id})),
                    left - 1, cutoff, count + 1)
  }

  function PruneFinish(m: Machine, swept: Swept): Ran {
    if swept.failed.Some? then Ran(swept.m, Err(swept.failed.value))
    else
      var s' := if swept.count > 0 then swept.m.state.(revision := m.state.revision + 1) else swept.m.state;
      Ran(swept.m.(state := s'), Ok(PrunedReply(MetaOf(s'), swept.count)))
  }

  function PruneRun(m: Machine, cutoff: nat, max: nat): Ran {
    if max == 0 then Ran(m, Err(InvalidCapacity(PruneCapacity)))
    else
      var selected := Probe(m.completed, m.state.tasks, cutoff, max);
      if selected == [] then Ran(m, Ok(PrunedReply(MetaOf(m.state), 0)))
      else if Underflows(m, selected) != {} then Ran(m, Err(TaskCountUnderflow(MinId(Underflows(m, selected)))))
      else if m.state.revision >= U64_MAX then Ran(m, Err(CounterOverflow))
      else PruneFinish(m, Destroy(m, |selected|, cutoff, 0))
  }

  /** One command: the change set is cleared first, then the command runs. */
  function Exec(machine: Machine, c: Command): Ran {
    var m := machine.(changes := NoChanges);
    match c
    case EnsureNamespace(ns, max) => TakeOutcome(m, EnsureNamespaceStep(m.state, ns, max))
    case PublishTask(_, _, _, _, _) => PublishRun(m, c)
    case EnsureGroup(_, _, _) => EnsureGroupRun(m, c)
    case JoinGroup(g, member, capabilities, now, max) =>
      TakeOutcome(m, JoinStep(m.state, g, member, capabilities, now, max))
    case Heartbeat(g, member, generation, now) => TakeOutcome(m, HeartbeatStep(m.state, g, member, generation, now))
    case LeaveGroup(_, _, _) => LeaveRun(m, c)
    case ReapStaleMembers(before, max) => ReapRun(m, before, max)
    case ClaimTask(_, _, _, _, _, _, _) => ClaimRun(m, c)
    case RenewLease(_, _, _, _, _, _, _, _, _) => RenewRun(m, c)
    case CompleteTask(_, _, _, _, _, _, _, _, _) => CompleteRun(m, c)
    case PruneCompleted(cutoff, max) => PruneRun(m, cutoff, max)
    case AdvanceTerm(expected, term) => TakeOutcome(m, AdvanceTermStep(m.state, expected, term))
  }
}
