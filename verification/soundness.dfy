/** What every reachable authoritative state satisfies, and what no command can undo. */
module Soundness {
  import opened Order
  import opened Tasks
  import opened Groups
  import opened BrokerState
  import opened ClaimRefinement
  import opened Refinement

  /** No two leased Tasks carry the same lease id. */
  ghost predicate UniqueLeases(tasks: map<nat, Task>) {
    forall t, u | t in tasks && u in tasks && tasks[t].state.Leased? && tasks[u].state.Leased? ::
      tasks[t].state.lease.leaseId == tasks[u].state.lease.leaseId ==> t == u
  }

  /** A lease belongs to a current member of a group in the Task's namespace, and was granted at a
      generation that the group had reached. */
  predicate Owned(t: Task, groups: map<nat, Group>) {
    t.state.Leased? ==>
      var l := t.state.lease;
      && l.group in groups && groups[l.group].ns == t.ns
      && l.owner in groups[l.group].consumers && l.generation <= groups[l.group].generation
  }

  predicate TaskSound(t: Task, namespaces: map<nat, nat>) {
    t.revision > 0 && t.ns in namespaces
  }

  predicate GroupSound(g: Group, namespaces: map<nat, nat>) {
    g.revision > 0 && g.ns in namespaces && forall w | w in g.consumers :: g.consumers[w].revision > 0
  }

  /** Entity revisions are positive and every Task and group belongs to a known namespace. */
  ghost predicate Restorable(s: State) {
    && (forall n :: n in s.namespaces ==> s.namespaces[n] > 0)
    && (forall t :: t in s.tasks ==> TaskSound(s.tasks[t], s.namespaces))
    && (forall g :: g in s.groups ==> GroupSound(s.groups[g], s.namespaces))
    && UniqueLeases(s.tasks)
  }

  ghost predicate AllOwned(s: State) {
    forall t :: t in s.tasks ==> Owned(s.tasks[t], s.groups)
  }

  ghost predicate Sound(s: State) {
    Restorable(s) && AllOwned(s)
  }

  lemma SoundRestorable(s: State)
    requires Sound(s)
    ensures Restorable(s)
  {}

  // ---- Requeueing never hurts ----

  lemma RequeueSound(s: State, ids: set<nat>)
    requires Sound(s) && AllLeased(s.tasks, ids)
    ensures Sound(s.(tasks := RequeueAll(s.tasks, ids)))
  {}

  lemma RevisedSound(s: State, term: nat, revision: nat)
    requires Sound(s)
    ensures Sound(s.(term := term, revision := revision))
  {}

  // ---- Command by command ----

  lemma EnsureNamespaceSound(s: State, ns: nat, max: nat)
    requires Sound(s)
    ensures Sound(EnsureNamespaceStep(s, ns, max).state)
  {}

  lemma TaskSetSound(s: State, t: nat, task: Task)
    requires Sound(s) && TaskSound(task, s.namespaces) && Owned(task, s.groups)
    requires task.state.Leased? ==> forall u :: u in LeaseHolders(s.tasks, task.state.lease.leaseId) ==> u == t
    ensures Sound(s.(tasks := s.tasks[t := task]))
  {
    assert task.state.Leased? ==> forall u :: u in s.tasks && s.tasks[u].state.Leased? && u != t ==>
      s.tasks[u].state.lease.leaseId != task.state.lease.leaseId by {
      if task.state.Leased? {
        forall u | u in s.tasks && s.tasks[u].state.Leased? && u != t
          ensures s.tasks[u].state.lease.leaseId != task.state.lease.leaseId
        {
          assert u !in LeaseHolders(s.tasks, task.state.lease.leaseId);
        }
      }
    }
  }

  lemma PublishSound(s: State, c: Command)
    requires Sound(s) && c.PublishTask?
    ensures Sound(PublishSpec(s, c).state)
  {}

  lemma EnsureGroupSound(s: State, c: Command)
    requires Sound(s) && c.EnsureGroup?
    ensures Sound(EnsureGroupSpec(s, c).state)
  {}

  lemma JoinedSound(g: Group, member: nat, capabilities: set<nat>, now: nat, max: nat, namespaces: map<nat, nat>)
    requires GroupSound(g, namespaces)
    ensures
      var r := Groups.JoinGroup(g, member, capabilities, now, max);
      r.Ok? ==> GroupSound(r.value.0, namespaces) && r.value.0.ns == g.ns && g.generation <= r.value.0.generation &&
                g.consumers.Keys <= r.value.0.consumers.Keys
  {}

  lemma GrownSound(s: State, g: nat, group: Group)
    requires Sound(s) && g in s.groups && GroupSound(group, s.namespaces) && group.ns == s.groups[g].ns
    requires s.groups[g].generation <= group.generation && s.groups[g].consumers.Keys <= group.consumers.Keys
    ensures Sound(s.(groups := s.groups[g := group], revision := s.revision + 1))
  {}

  lemma JoinSound(s: State, group: nat, member: nat, capabilities: set<nat>, now: nat, max: nat)
    requires Sound(s)
    ensures Sound(JoinStep(s, group, member, capabilities, now, max).state)
  {
    if group in s.groups {
      JoinedSound(s.groups[group], member, capabilities, now, max, s.namespaces);
      var r := Groups.JoinGroup(s.groups[group], member, capabilities, now, max);
      if r.Ok? {
        GrownSound(s, group, r.value.0);
      }
    }
    hide Sound, GroupSound;
  }

  lemma HeartbeatSound(s: State, group: nat, member: nat, generation: nat, now: nat)
    requires Sound(s)
    ensures Sound(HeartbeatStep(s, group, member, generation, now).state)
  {}

  lemma LeftSound(s: State, group: nat, member: nat)
    requires Sound(s) && group in s.groups
    requires forall t :: t in s.tasks ==> !HeldBy(s.tasks[t], group, member)
    ensures Sound(s.(groups := s.groups[group := Without(s.groups[group], {member})], revision := s.revision + 1))
  {}

  lemma LeaveSound(s: State, group: nat, member: nat, generation: nat)
    requires Sound(s)
    ensures Sound(LeaveStep(s, group, member, generation).state)
  {
    hide Sound;
    if LeaveStep(s, group, member, generation).reply.Ok? {
      var held := HeldTasks(s.tasks, group, member);
      RequeueSound(s, held);
      LeftSound(s.(tasks := RequeueAll(s.tasks, held)), group, member);
    }
  }

  lemma ReapedSound(s: State, selected: set<Key>)
    requires Sound(s)
    requires forall t :: t in s.tasks ==> t !in HeldByAny(s.tasks, selected)
    ensures Sound(s.(groups := ReapAll(s.groups, selected), revision := s.revision + 1))
  {}

  lemma NoneHeldAfter(tasks: map<nat, Task>, selected: set<Key>)
    requires AllLeased(tasks, HeldByAny(tasks, selected))
    ensures
      var after := RequeueAll(tasks, HeldByAny(tasks, selected));
      forall t :: t in after ==> t !in HeldByAny(after, selected)
  {}

  lemma ReapSound(s: State, before: nat, max: nat)
    requires Sound(s)
    ensures Sound(ReapStep(s, before, max).state)
  {
    hide Sound, ReapAll, StaleKeys, FirstN;
    if ReapStep(s, before, max).state != s {
      var selected := FirstN(StaleKeys(s.groups, before), max);
      var held := HeldByAny(s.tasks, selected);
      RequeueSound(s, held);
      NoneHeldAfter(s.tasks, selected);
      ReapedSound(s.(tasks := RequeueAll(s.tasks, held)), selected);
    }
  }

  lemma RenewSound(s: State, c: Command)
    requires Sound(s) && c.RenewLease?
    ensures Sound(RenewStep(s, c).state)
  {
    RenewStepIs(s, c);
    if RenewStep(s, c).reply.Ok? {
      var task := RenewedTask(s.tasks[c.task], c.now + c.duration);
      assert TaskSound(s.tasks[c.task], s.namespaces) && Owned(s.tasks[c.task], s.groups);
      TaskSetSound(s, c.task, task);
      RevisedSound(s.(tasks := s.tasks[c.task := task]), s.term, s.revision + 1);
    }
    hide Sound, RenewStep;
  }

  lemma CompleteSound(s: State, c: Command)
    requires Sound(s) && c.CompleteTask?
    ensures Sound(CompleteStep(s, c).state)
  {}

  lemma ForgottenSound(s: State, ids: set<nat>)
    requires Sound(s)
    ensures Sound(s.(tasks := s.tasks - ids, revision := s.revision + 1))
  {}

  lemma PruneSound(s: State, cutoff: nat, max: nat)
    requires Sound(s)
    ensures Sound(PruneStep(s, cutoff, max).state)
  {
    hide Sound, CompletedKeys, FirstN, Members;
    ForgottenSound(s, Members(FirstN(CompletedKeys(s.tasks, cutoff), max)));
  }

  lemma ClaimSound(s: State, c: Command)
    requires Sound(s) && c.ClaimTask?
    ensures Sound(ClaimStep(s, c).state)
  {
    if Grants(s, c) {
      ClaimStepGrants(s, c);
      var t := MinKey(ClaimReady(s, c)).id;
      var s1 := s.(tasks := ClaimTasks(s, c));
      RequeueSound(s, ClaimExpired(s, c));
      assert LeaseHolders(s1.tasks, c.lease) == {};
      assert TaskSound(s1.tasks[t], s1.namespaces);
      TaskSetSound(s1, t, LeasedBy(s, c));
      RevisedSound(s1.(tasks := s1.tasks[t := LeasedBy(s, c)]), s.term, s.revision + 1);
    }
  }

  /** Every command preserves soundness: lease ownership included. */
  lemma StepSound(s: State, c: Command)
    requires Sound(s)
    ensures Sound(Step(s, c).state)
  {
    hide Sound, RenewStep, ClaimStep, CompleteStep, LeaveStep, ReapStep, PruneStep, PublishSpec, EnsureGroupSpec,
      EnsureNamespaceStep, JoinStep, HeartbeatStep;
    match c
    case EnsureNamespace(ns, max) => EnsureNamespaceSound(s, ns, max);
    case PublishTask(_, _, _, _, _) => PublishSound(s, c);
    case EnsureGroup(_, _, _) => EnsureGroupSound(s, c);
    case JoinGroup(g, member, capabilities, now, max) => JoinSound(s, g, member, capabilities, now, max);
    case Heartbeat(g, member, generation, now) => HeartbeatSound(s, g, member, generation, now);
    case LeaveGroup(g, member, generation) => LeaveSound(s, g, member, generation);
    case ReapStaleMembers(before, max) => ReapSound(s, before, max);
    case ClaimTask(_, _, _, _, _, _, _) => ClaimSound(s, c);
    case RenewLease(_, _, _, _, _, _, _, _, _) => RenewSound(s, c);
    case CompleteTask(_, _, _, _, _, _, _, _, _) => CompleteSound(s, c);
    case PruneCompleted(cutoff, max) => PruneSound(s, cutoff, max);
    case AdvanceTerm(_, term) => RevisedSound(s, term, s.revision + 1);
  }
}
