/** Lease fencing: the only ways in which a Task can change, and what follows for whole runs. */
module Fencing {
  import opened Order
  import opened Tasks
  import opened Groups
  import opened BrokerState
  import opened BrokerMachine
  import opened ClaimRefinement
  import opened DepartureRefinement
  import opened Refinement
  import opened Entries
  import opened Runs
  import opened Progress
  import opened Membership

  // ---- What one command can do to one Task ----

  /** The Task as a claim finds it: an expired lease has just gone back to the queue. */
  function Recovered(a: Task): Task {
    if a.state.Leased? then Requeued(a) else a
  }

  predicate ClaimedBy(c: Command, a: Task, b: Task) {
    && c.ClaimTask? && !a.state.Completed? && (a.state.Leased? ==> a.state.lease.expiresAt <= c.now)
    && Tasks.ClaimTask(Recovered(a), GrantOf(c)) == Ok(b)
  }

  predicate RenewedBy(s: State, c: Command, t: nat, a: Task, b: Task) {
    Renews(s, c) && c.task == t && a.state.Leased? && b == RenewedTask(a, c.now + c.duration)
  }

  predicate CompletedBy(s: State, c: Command, t: nat, a: Task, b: Task) {
    Completes(s, c) && c.task == t && a.state.Leased? && b == CompletedTask(a, c)
  }

  /** The owner is one of the members that the reap selects: stale, and among the first of them. */
  predicate ReapsOwner(s: State, c: Command, l: Lease) {
    && c.ReapStaleMembers? && l.group in s.groups && l.owner in s.groups[l.group].consumers
    && s.groups[l.group].consumers[l.owner].heartbeatAt <= c.staleBefore
    && l.owner in MembersOf(FirstN(StaleKeys(s.groups, c.staleBefore), c.maxReaped), l.group)
  }

  /** A lease is taken away by expiry (in a claim) or by its owner's departure. */
  predicate RequeuedBy(s: State, c: Command, a: Task, b: Task) {
    && a.state.Leased? && b == Requeued(a)
    && (|| (c.ClaimTask? && a.state.lease.expiresAt <= c.now)
        || (c.LeaveGroup? && HeldBy(a, c.group, c.member))
        || ReapsOwner(s, c, a.state.lease))
  }

  predicate Moved(s: State, c: Command, t: nat, a: Task, b: Task) {
    b == a || ClaimedBy(c, a, b) || RenewedBy(s, c, t, a, b) || CompletedBy(s, c, t, a, b) ||
    RequeuedBy(s, c, a, b)
  }

  predicate Created(c: Command, t: nat, b: Task) {
    c.PublishTask? && c.task == t && b == NewTask(c.ns, c.objective, c.createdAt)
  }

  predicate Forgotten(c: Command, a: Task) {
    c.PruneCompleted? && a.state.Completed? && a.state.done.completedAt <= c.completedBefore
  }

  /** From `s` to `s'`, Task `t` moves legally, appears by publication or disappears by pruning. */
  predicate Lawful(s: State, c: Command, s': State, t: nat) {
    && (t in s.tasks && t in s'.tasks ==> Moved(s, c, t, s.tasks[t], s'.tasks[t]))
    && (t !in s.tasks && t in s'.tasks ==> Created(c, t, s'.tasks[t]))
    && (t in s.tasks && t !in s'.tasks ==> Forgotten(c, s.tasks[t]))
  }

  lemma ClaimLawful(s: State, c: Command, t: nat)
    requires c.ClaimTask?
    ensures Lawful(s, c, ClaimStep(s, c).state, t)
  {
    if Grants(s, c) {
      ClaimStepGrants(s, c);
    }
  }

  lemma RenewLawful(s: State, c: Command, t: nat)
    requires c.RenewLease?
    ensures Lawful(s, c, RenewStep(s, c).state, t)
  {}

  lemma CompleteLawful(s: State, c: Command, t: nat)
    requires c.CompleteTask?
    ensures Lawful(s, c, CompleteStep(s, c).state, t)
  {}

  lemma ReapLawful(s: State, c: Command, t: nat)
    requires c.ReapStaleMembers?
    ensures Lawful(s, c, ReapStep(s, c.staleBefore, c.maxReaped).state, t)
  {
    hide FirstN, StaleKeys, MembersOf, ReapAll, CanAdvance, AffectedGroups, CanRequeue, ClaimedBy, RenewedBy,
      CompletedBy;
    var selected := FirstN(StaleKeys(s.groups, c.staleBefore), c.maxReaped);
    if t in HeldByAny(s.tasks, selected) {
      SelectedIsStale(s.groups, c.staleBefore, selected, s.tasks[t].state.lease.group, s.tasks[t].state.lease.owner);
    }
  }

  lemma SelectedIsStale(groups: map<nat, Group>, before: nat, selected: set<Key>, g: nat, m: nat)
    requires selected <= StaleKeys(groups, before) && m in MembersOf(selected, g)
    ensures g in groups && m in groups[g].consumers && groups[g].consumers[m].heartbeatAt <= before
  {}

  lemma PrunedIsCompleted(tasks: map<nat, Task>, cutoff: nat, max: nat, t: nat)
    requires t in Members(FirstN(CompletedKeys(tasks, cutoff), max))
    ensures t in tasks && tasks[t].state.Completed? && tasks[t].state.done.completedAt <= cutoff
  {}

  lemma PruneLawful(s: State, c: Command, t: nat)
    requires c.PruneCompleted?
    ensures Lawful(s, c, PruneStep(s, c.completedBefore, c.maxPruned).state, t)
  {
    hide FirstN, Members, CompletedKeys;
    if t in Members(FirstN(CompletedKeys(s.tasks, c.completedBefore), c.maxPruned)) {
      PrunedIsCompleted(s.tasks, c.completedBefore, c.maxPruned, t);
    }
  }

  lemma LeaveLawful(s: State, c: Command, t: nat)
    requires c.LeaveGroup?
    ensures Lawful(s, c, LeaveStep(s, c.group, c.member, c.expectedGeneration).state, t)
  {}

  lemma StepLawful(s: State, c: Command, t: nat)
    ensures Lawful(s, c, Step(s, c).state, t)
  {
    match c
    case ClaimTask(_, _, _, _, _, _, _) => ClaimLawful(s, c, t);
    case RenewLease(_, _, _, _, _, _, _, _, _) => RenewLawful(s, c, t);
    case CompleteTask(_, _, _, _, _, _, _, _, _) => CompleteLawful(s, c, t);
    case ReapStaleMembers(_, _) => ReapLawful(s, c, t);
    case PruneCompleted(_, _) => PruneLawful(s, c, t);
    case LeaveGroup(_, _, _) => LeaveLawful(s, c, t);
    case EnsureNamespace(_, _) =>
    case PublishTask(_, _, _, _, _) =>
    case EnsureGroup(_, _, _) =>
    case JoinGroup(_, _, _, _, _) =>
    case Heartbeat(_, _, _, _) =>
    case AdvanceTerm(_, _) =>
  }

  // ---- The machine, whatever state its indexes are in ----

  /** The Task is as it was, or its lease was taken away. */
  predicate Touched(a: Task, b: Task) {
    b == a || (a.state.Leased? && b == Requeued(a))
  }

  lemma {:induction false} RecoveryTouches(m: Machine, ns: nat, ids: set<nat>, now: nat, count: nat, t: nat)
    ensures
      var tasks := RequeueExpired(m, ns, ids, now, count).m.state.tasks;
      && (t in tasks <==> t in m.state.tasks)
      && (t in tasks ==> Touched(m.state.tasks[t], tasks[t]))
      && (t in tasks && tasks[t] != m.state.tasks[t] ==> m.state.tasks[t].state.lease.expiresAt <= now)
    decreases |ids|
  {
    if ids != {} {
      var u := MinId(ids);
      MinIdIn(ids);
      if u in m.state.tasks && RequeueIfExpired(m.state.tasks[u], now).Ok? &&
         RequeueIfExpired(m.state.tasks[u], now).value.1 {
        RecoveryTouches(RequeueOne(m, u, ns), ns, ids - {u}, now, count + 1, t);
      } else {
        RecoveryTouches(m, ns, ids - {u}, now, count, t);
      }
    }
  }

  lemma {:induction false} HeldTouches(m: Machine, group: nat, member: nat, ids: set<nat>, t: nat)
    ensures
      var tasks := RequeueHeld(m, group, member, ids).m.state.tasks;
      && (t in tasks <==> t in m.state.tasks)
      && (t in tasks ==> Touched(m.state.tasks[t], tasks[t]))
      && (t in tasks && tasks[t] != m.state.tasks[t] ==> HeldBy(m.state.tasks[t], group, member))
    decreases |ids|
  {
    if ids != {} {
      var u := MinId(ids);
      MinIdIn(ids);
      if u in m.state.tasks && HeldBy(m.state.tasks[u], group, member) && m.state.tasks[u].revision < U64_MAX {
        HeldTouches(RequeueOne(m, u, m.state.tasks[u].ns), group, member, ids - {u}, t);
      } else {
        HeldTouches(m, group, member, ids - {u}, t);
      }
    }
  }

  lemma {:induction false} RemovedTouches(m: Machine, group: nat, removed: set<Key>, t: nat)
    ensures
      var tasks := RequeueRemoved(m, group, removed).m.state.tasks;
      && (t in tasks <==> t in m.state.tasks)
      && (t in tasks ==> Touched(m.state.tasks[t], tasks[t]))
      && (t in tasks && tasks[t] != m.state.tasks[t] ==>
            var l := m.state.tasks[t].state.lease; l.group == group && l.owner in Members(removed))
    decreases |removed|
  {
    if removed != {} {
      var k := MinKey(removed);
      var key := (group, k.id);
      HeldTouches(m.(held := m.held - {key}), group, k.id, LeasesOf(m.held, key), t);
      hide RequeueHeld;
      var swept := RequeueMember(m, group, k.id);
      RemovedTouches(swept.m, group, removed - {k}, t);
      assert k.id in Members(removed) && Members(removed - {k}) <= Members(removed);
    }
  }

  /** A group's turn takes leases away from its selected members only. */
  lemma TurnTouches(m: Machine, groups: map<nat, Group>, before: nat, max: nat, g: nat, t: nat)
    requires Untouched(m, groups, {g})
    ensures
      var selected := FirstN(StaleKeys(groups, before), max);
      var tasks := ReapTurn(m, selected, g, before).m.state.tasks;
      && (t in tasks <==> t in m.state.tasks)
      && (t in tasks ==> Touched(m.state.tasks[t], tasks[t]))
      && (t in tasks && tasks[t] != m.state.tasks[t] ==>
            var l := m.state.tasks[t].state.lease; l.owner in MembersOf(selected, l.group))
  {
    var selected := FirstN(StaleKeys(groups, before), max);
    assert g in groups && m.state.groups[g] == groups[g];
    SelectedAreFirst(groups, before, max, g);
    LocalMembers(selected, g);
    hide FirstN, RequeueRemoved, Local, KeysOf, StaleKeys, MembersOf;
    var r := ReapGroup(groups[g], before, |KeysOf(selected, g)|);
    if r.Ok? {
      RemovedTouches(m.(state := m.state.(groups := m.state.groups[g := r.value.0])), g, r.value.1, t);
    }
  }

  lemma {:induction false} ReapTouches(
    m: Machine, groups: map<nat, Group>, before: nat, max: nat, ids: set<nat>, count: nat, affected: set<nat>, t: nat)
    requires Untouched(m, groups, ids)
    ensures
      var selected := FirstN(StaleKeys(groups, before), max);
      var tasks := ReapGroups(m, selected, ids, before, count, affected).m.state.tasks;
      && (t in tasks <==> t in m.state.tasks)
      && (t in tasks ==> Touched(m.state.tasks[t], tasks[t]))
      && (t in tasks && tasks[t] != m.state.tasks[t] ==>
            var l := m.state.tasks[t].state.lease; l.owner in MembersOf(selected, l.group))
    decreases |ids|
  {
    hide ReapTurn, FirstN, StaleKeys, MembersOf;
    if ids != {} {
      var selected := FirstN(StaleKeys(groups, before), max);
      var g := MinId(ids);
      MinIdIn(ids);
      TurnTouches(m, groups, before, max, g, t);
      var turn := ReapTurn(m, selected, g, before);
      forall h | h in ids - {g} ensures h in turn.m.state.groups && turn.m.state.groups[h] == groups[h] {
        assert h in ids;
        TurnLaw(m, selected, g, before, h);
      }
      ReapTouches(turn.m, groups, before, max, ids - {g}, count + |turn.removed|,
                  if turn.removed == {} then affected else affected + {g}, t);
    }
  }

  lemma {:induction false} DestroyForgets(m: Machine, left: nat, cutoff: nat, count: nat, t: nat)
    ensures
      var tasks := Destroy(m, left, cutoff, count).m.state.tasks;
      && (t in tasks ==> t in m.state.tasks && tasks[t] == m.state.tasks[t])
      && (t in m.state.tasks && t !in tasks ==>
            m.state.tasks[t].state.Completed? && m.state.tasks[t].state.done.completedAt <= cutoff)
    decreases |m.completed|
  {
    hide Destroy;
    DestroyUnfolds(m, left, cutoff, count);
    if left > 0 && m.completed != multiset{} && MinKey(Support(m.completed)).at <= cutoff {
      var k := MinKey(Support(m.completed));
      if !CompletedMatch(m.state.tasks, k) {
        DestroyForgets(Disposed(m, k), left, cutoff, count, t);
      } else if m.state.tasks[k.id].ns in m.taskCounts {
        DestroyForgets(Disposed(m, k), left - 1, cutoff, count + 1, t);
      }
    }
  }

  lemma LendLawful(m: Machine, rec: Machine, c: Command, ns: nat, u: nat, t: nat)
    requires c.ClaimTask? && (t in rec.state.tasks <==> t in m.state.tasks)
    requires t in m.state.tasks ==> Touched(m.state.tasks[t], rec.state.tasks[t])
    requires t in m.state.tasks && rec.state.tasks[t] != m.state.tasks[t] ==>
               m.state.tasks[t].state.lease.expiresAt <= c.now
    ensures Lawful(m.state, c, GrantLease(rec, c, ns, u).m.state, t)
  {
    hide Push, AddHeld, ClaimReplyOf;
  }

  lemma RecoverTouches(m: Machine, ns: nat, now: nat, t: nat)
    ensures
      var tasks := RecoverExpired(m, ns, now).m.state.tasks;
      && (t in tasks <==> t in m.state.tasks)
      && (t in tasks ==> Touched(m.state.tasks[t], tasks[t]))
      && (t in tasks && tasks[t] != m.state.tasks[t] ==> m.state.tasks[t].state.lease.expiresAt <= now)
  {
    hide RequeueExpired, Drain, Due;
    if ns in m.expirations {
      RecoveryTouches(m.(expirations := m.expirations[ns := Drain(m.expirations[ns], now)]), ns,
                      Due(m.expirations[ns], m.state.tasks, now), now, 0, t);
    }
  }

  lemma RecoveryLawful(m: Machine, rec: Machine, c: Command, t: nat)
    requires c.ClaimTask? && (t in rec.state.tasks <==> t in m.state.tasks)
    requires t in m.state.tasks ==> Touched(m.state.tasks[t], rec.state.tasks[t])
    requires t in m.state.tasks && rec.state.tasks[t] != m.state.tasks[t] ==>
               m.state.tasks[t].state.lease.expiresAt <= c.now
    ensures Lawful(m.state, c, rec.state, t)
  {}

  lemma SameTasksLawful(s: State, c: Command, a: State, b: State, t: nat)
    requires Lawful(s, c, a, t) && b.tasks == a.tasks
    ensures Lawful(s, c, b, t)
  {}

  lemma FreshLawful(m: Machine, c: Command, ns: nat, t: nat)
    requires c.ClaimTask?
    ensures Lawful(m.state, c, ClaimFresh(m, c, ns).m.state, t)
  {
    hide RecoverExpired, PopReady, GrantLease, HeapAt, Lawful, Touched, Push, AddHeld;
    RecoverTouches(m, ns, c.now, t);
    var rec := RecoverExpired(m, ns, c.now);
    RecoveryLawful(m, rec.m, c, t);
    var (heap, popped) := PopReady(HeapAt(rec.m.ready, ns), rec.m.state.tasks);
    var m' := if ns in rec.m.ready then rec.m.(ready := rec.m.ready[ns := heap]) else rec.m;
    if popped.Some? {
      LendLawful(m, m', c, ns, popped.value, t);
    } else {
      SameTasksLawful(m.state, c, rec.m.state, ClaimFresh(m, c, ns).m.state, t);
    }
  }

  lemma ClaimRunLawful(m: Machine, c: Command, t: nat)
    requires c.ClaimTask?
    ensures Lawful(m.state, c, ClaimRun(m, c).m.state, t)
  {
    hide ClaimFresh;
    if c.group in m.state.groups {
      FreshLawful(m, c, m.state.groups[c.group].ns, t);
    }
  }

  lemma LeaveRunLawful(m: Machine, c: Command, t: nat)
    requires c.LeaveGroup?
    ensures Lawful(m.state, c, LeaveRun(m, c).m.state, t)
  {
    hide RequeueHeld, Preflight, Groups.LeaveGroup;
    if c.group in m.state.groups {
      var left := Groups.LeaveGroup(m.state.groups[c.group], c.member, c.expectedGeneration);
      if left.Ok? {
        var key := (c.group, c.member);
        var gone := m.(state := m.state.(groups := m.state.groups[c.group := left.value]));
        HeldTouches(gone.(held := gone.held - {key}), c.group, c.member, LeasesOf(gone.held, key), t);
      }
    }
  }

  lemma ReapedLawful(s: State, c: Command, s': State, t: nat)
    requires c.ReapStaleMembers? && (t in s'.tasks <==> t in s.tasks)
    requires t in s.tasks ==> Touched(s.tasks[t], s'.tasks[t])
    requires t in s.tasks && s'.tasks[t] != s.tasks[t] ==> ReapsOwner(s, c, s.tasks[t].state.lease)
    ensures Lawful(s, c, s', t)
  {
    hide ReapsOwner;
  }

  lemma ReapRunTouches(m: Machine, before: nat, max: nat, t: nat)
    ensures
      var selected := FirstN(StaleKeys(m.state.groups, before), max);
      var tasks := ReapRun(m, before, max).m.state.tasks;
      && (t in tasks <==> t in m.state.tasks)
      && (t in tasks ==> Touched(m.state.tasks[t], tasks[t]))
      && (t in tasks && tasks[t] != m.state.tasks[t] ==>
            var l := m.state.tasks[t].state.lease; l.owner in MembersOf(selected, l.group))
  {
    hide FirstN, StaleKeys, MembersOf, Preflight, CanAdvance, ReapGroups, AffectedGroups;
    var selected := FirstN(StaleKeys(m.state.groups, before), max);
    AffectedAreGroups(m.state.groups, before, selected);
    ReapTouches(m, m.state.groups, before, max, AffectedGroups(selected), 0, {}, t);
  }

  lemma ReapRunLawful(m: Machine, c: Command, t: nat)
    requires c.ReapStaleMembers?
    ensures Lawful(m.state, c, ReapRun(m, c.staleBefore, c.maxReaped).m.state, t)
  {
    hide FirstN, StaleKeys, MembersOf, ReapRun, Lawful, Touched;
    var selected := FirstN(StaleKeys(m.state.groups, c.staleBefore), c.maxReaped);
    var s' := ReapRun(m, c.staleBefore, c.maxReaped).m.state;
    ReapRunTouches(m, c.staleBefore, c.maxReaped, t);
    if t in s'.tasks && s'.tasks[t] != m.state.tasks[t] {
      TouchedWasLeased(m.state.tasks[t], s'.tasks[t]);
      var l := m.state.tasks[t].state.lease;
      SelectedIsStale(m.state.groups, c.staleBefore, selected, l.group, l.owner);
    }
    ReapedLawful(m.state, c, s', t);
  }

  lemma TouchedWasLeased(a: Task, b: Task)
    requires Touched(a, b) && b != a
    ensures a.state.Leased?
  {}

  lemma AffectedAreGroups(groups: map<nat, Group>, before: nat, selected: set<Key>)
    requires selected <= StaleKeys(groups, before)
    ensures AffectedGroups(selected) <= groups.Keys
  {}

  lemma PruneRunLawful(m: Machine, c: Command, t: nat)
    requires c.PruneCompleted?
    ensures Lawful(m.state, c, PruneRun(m, c.completedBefore, c.maxPruned).m.state, t)
  {
    hide Probe, Underflows, Destroy;
    DestroyForgets(m, |Probe(m.completed, m.state.tasks, c.completedBefore, c.maxPruned)|, c.completedBefore, 0, t);
  }

  /** Renewals and completions, and whatever touches no Task, do not look at the indexes. */
  lemma IndexFree(m: Machine, c: Command)
    requires c.RenewLease? || c.CompleteTask? || c.EnsureNamespace? || c.JoinGroup? || c.Heartbeat? || c.AdvanceTerm?
    ensures Exec(m, c).m.state == Step(m.state, c).state && Exec(m, c).reply == Step(m.state, c).reply
    ensures Exec(m, c).m.changes == Step(m.state, c).changes
  {
    hide RenewStep, CompleteStep, JoinStep, HeartbeatStep, EnsureNamespaceStep, AdvanceTermStep;
  }

  lemma PublishRunLawful(m: Machine, c: Command, t: nat)
    requires c.PublishTask?
    ensures Lawful(m.state, c, PublishRun(m, c).m.state, t)
  {
    hide PublishRun;
    PublishAdds(m, c);
  }

  lemma EnsureGroupRunLawful(m: Machine, c: Command, t: nat)
    requires c.EnsureGroup?
    ensures Lawful(m.state, c, EnsureGroupRun(m, c).m.state, t)
  {
    hide EnsureGroupRun;
    EnsureGroupAdds(m, c);
  }

  /** The law of Tasks holds of the machine itself, agreeing indexes or not. */
  lemma ExecLawful(m: Machine, c: Command, t: nat)
    ensures Lawful(m.state, c, Exec(m, c).m.state, t)
  {
    hide Lawful, ClaimRun, LeaveRun, ReapRun, PruneRun, PublishRun, EnsureGroupRun, RenewRun, CompleteRun, JoinStep,
      HeartbeatStep, EnsureNamespaceStep, AdvanceTermStep, Step;
    var m' := m.(changes := NoChanges);
    match c
    case ClaimTask(_, _, _, _, _, _, _) => ClaimRunLawful(m', c, t);
    case LeaveGroup(_, _, _) => LeaveRunLawful(m', c, t);
    case ReapStaleMembers(_, _) => ReapRunLawful(m', c, t);
    case PruneCompleted(_, _) => PruneRunLawful(m', c, t);
    case PublishTask(_, _, _, _, _) => PublishRunLawful(m', c, t);
    case EnsureGroup(_, _, _) => EnsureGroupRunLawful(m', c, t);
    case _ => IndexFree(m, c); StepLawful(m.state, c, t);
  }

  // ---- Whole runs of the machine ----

  /** The Task is there from the first state of the run to the last: one incarnation. */
  predicate Survives(m: Machine, log: seq<Command>, t: nat)
    decreases |log|
  {
    t in m.state.tasks && (log == [] || Survives(Exec(m, log[0]).m, log[1..], t))
  }

  /** How many commands of the run granted a lease on the Task. */
  function GrantsOn(m: Machine, log: seq<Command>, t: nat): nat
    decreases |log|
  {
    if log == [] then 0
    else (if Claims(m, log[0], t) then 1 else 0) + GrantsOn(Exec(m, log[0]).m, log[1..], t)
  }

  predicate Claims(m: Machine, c: Command, t: nat) {
    var s, s' := m.state, Exec(m, c).m.state;
    t in s.tasks && t in s'.tasks && ClaimedBy(c, s.tasks[t], s'.tasks[t])
  }

  lemma EpochStep(m: Machine, c: Command, t: nat)
    requires t in m.state.tasks && t in Exec(m, c).m.state.tasks
    ensures Epoch(Exec(m, c).m.state.tasks[t]) == Epoch(m.state.tasks[t]) + if Claims(m, c, t) then 1 else 0
  {
    hide Exec, Renews, Completes, ReapsOwner;
    ExecLawful(m, c, t);
  }

  /** Epochs count grants, over every run of any machine: within one incarnation each grant takes the next
      epoch, and nothing else moves it.  So no two leases of an incarnation share an epoch. */
  lemma {:induction false} EpochsCountGrants(m: Machine, log: seq<Command>, t: nat)
    requires Survives(m, log, t)
    ensures t in After(m, log).state.tasks
    ensures Epoch(After(m, log).state.tasks[t]) == Epoch(m.state.tasks[t]) + GrantsOn(m, log, t)
    decreases |log|
  {
    hide Exec, Claims;
    if log != [] {
      EpochStep(m, log[0], t);
      EpochsCountGrants(Exec(m, log[0]).m, log[1..], t);
    }
  }

  /** The lease granted at this epoch is over: expired and requeued, taken away, or completed. */
  predicate Over(t: Task, epoch: nat) {
    epoch < Epoch(t) || (epoch == Epoch(t) && !t.state.Leased?)
  }

  lemma OverStep(m: Machine, c: Command, t: nat, epoch: nat)
    requires t in m.state.tasks && t in Exec(m, c).m.state.tasks && Over(m.state.tasks[t], epoch)
    ensures Over(Exec(m, c).m.state.tasks[t], epoch)
  {
    hide Exec, Renews, Completes, ReapsOwner;
    ExecLawful(m, c, t);
  }

  lemma {:induction false} OverForever(m: Machine, log: seq<Command>, t: nat, epoch: nat)
    requires Survives(m, log, t) && Over(m.state.tasks[t], epoch)
    ensures t in After(m, log).state.tasks && Over(After(m, log).state.tasks[t], epoch)
    decreases |log|
  {
    hide Exec, Over;
    if log != [] {
      OverStep(m, log[0], t, epoch);
      OverForever(Exec(m, log[0]).m, log[1..], t, epoch);
    }
  }

  /** The command speaks for the lease of `t` at `epoch`. */
  predicate Presents(c: Command, t: nat, epoch: nat) {
    (c.RenewLease? || c.CompleteTask?) && c.task == t && c.expectedEpoch == epoch
  }

  lemma HolderStep(s: State, c: Command)
    requires (c.RenewLease? || c.CompleteTask?) && Step(s, c).state != s
    ensures c.task in s.tasks && s.tasks[c.task].state.Leased? && Step(s, c).reply.Ok?
    ensures
      var l := s.tasks[c.task].state.lease;
      && l.leaseId == c.lease && l.owner == c.member && l.group == c.group && l.epoch == c.expectedEpoch
      && l.generation == c.expectedGeneration && l.expiresAt > (if c.RenewLease? then c.now else c.completedAt)
      && c.group in s.groups && s.groups[c.group].generation == l.generation && c.member in s.groups[c.group].consumers
      && s.term == c.expectedTerm
  {}

  /** What a renewal or completion must know to change anything: every field of the current lease,
      the group's current generation and a time before the deadline. */
  lemma OnlyTheHolderMoves(m: Machine, c: Command)
    requires (c.RenewLease? || c.CompleteTask?) && Exec(m, c).m.state != m.state
    ensures c.task in m.state.tasks && m.state.tasks[c.task].state.Leased? && Exec(m, c).reply.Ok?
    ensures
      var s := m.state;
      var l := s.tasks[c.task].state.lease;
      && l.leaseId == c.lease && l.owner == c.member && l.group == c.group && l.epoch == c.expectedEpoch
      && l.generation == c.expectedGeneration && l.expiresAt > (if c.RenewLease? then c.now else c.completedAt)
      && c.group in s.groups && s.groups[c.group].generation == l.generation && c.member in s.groups[c.group].consumers
      && s.term == c.expectedTerm
  {
    hide Exec, Step;
    IndexFree(m, c);
    HolderStep(m.state, c);
  }

  lemma OverIsPowerless(s: State, c: Command, t: nat, epoch: nat)
    requires t in s.tasks && Over(s.tasks[t], epoch) && Presents(c, t, epoch)
    ensures Step(s, c).state == s && Step(s, c).changes == NoChanges
    ensures c.RenewLease? ==> Step(s, c).reply.Err?
    ensures Step(s, c).reply.Ok? ==>
              s.tasks[t].state.Completed? && s.tasks[t].state.done.leaseId == c.lease &&
              s.tasks[t].state.done.result == c.result
  {}

  lemma PowerlessExec(m: Machine, c: Command)
    requires c.RenewLease? || c.CompleteTask?
    requires Step(m.state, c).state == m.state && Step(m.state, c).changes == NoChanges
    requires c.RenewLease? ==> Step(m.state, c).reply.Err?
    ensures Exec(m, c) == Ran(m.(changes := NoChanges), Step(m.state, c).reply)
  {
    hide RenewStep, CompleteStep;
  }

  /** Fencing over whole runs, also over damaged indexes: once the lease of an epoch is over, no later
      command that presents that epoch changes anything, whatever happened in between; a renewal is
      refused outright and a completion is at most told the result that is already there. */
  lemma StaleFenceRejected(m: Machine, log: seq<Command>, c: Command, t: nat, epoch: nat)
    requires Survives(m, log, t) && Over(m.state.tasks[t], epoch) && Presents(c, t, epoch)
    ensures
      var m' := After(m, log);
      Exec(m', c).m == m'.(changes := NoChanges) && (c.RenewLease? ==> Exec(m', c).reply.Err?)
  {
    hide Exec, Step, After, Survives, Over;
    OverForever(m, log, t, epoch);
    OverIsPowerless(After(m, log).state, c, t, epoch);
    PowerlessExec(After(m, log), c);
  }

  // ---- Generations ----

  /** Once membership has moved on, a command that presents an older generation changes nothing. */
  lemma StaleGenerationRejected(m: Machine, log: seq<Command>, c: Command)
    requires (c.ClaimTask? || c.RenewLease? || c.CompleteTask?) && c.group in m.state.groups
    requires c.expectedGeneration < m.state.groups[c.group].generation
    ensures
      var m' := After(m, log);
      Exec(m', c).m == m'.(changes := NoChanges) && Exec(m', c).reply.Err?
  {
    hide After, ChangesOf, ClaimFresh, RenewTask, Tasks.CompleteTask;
    GenerationCountsChanges(m, log, c.group);
  }

  // ---- Completion is final ----

  /** A completed Task keeps its recorded completion for as long as it is retained. */
  lemma {:induction false} CompletionIsFinal(m: Machine, log: seq<Command>, t: nat)
    requires Survives(m, log, t) && m.state.tasks[t].state.Completed?
    ensures t in After(m, log).state.tasks && After(m, log).state.tasks[t] == m.state.tasks[t]
    decreases |log|
  {
    hide Exec;
    if log != [] {
      CompletedStays(m, log[0], t);
      CompletionIsFinal(Exec(m, log[0]).m, log[1..], t);
    }
  }

  lemma CompletedStays(m: Machine, c: Command, t: nat)
    requires t in m.state.tasks && m.state.tasks[t].state.Completed? && t in Exec(m, c).m.state.tasks
    ensures Exec(m, c).m.state.tasks[t] == m.state.tasks[t]
  {
    hide Exec, Renews, Completes, ReapsOwner;
    ExecLawful(m, c, t);
  }
}
