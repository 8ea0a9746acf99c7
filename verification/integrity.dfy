/** What the machine keeps in every run, hazards and overflows included: every lease is found under its
    id and under its holder, so every reachable state survives a checkpoint. */
module Integrity {
  import opened Order
  import opened Tasks
  import opened Groups
  import opened BrokerState
  import opened BrokerMachine
  import opened DepartureRefinement
  import opened Refinement
  import opened Soundness
  import opened Checkpoints
  import opened Rebuilding
  import opened Progress
  import opened Entries
  import opened Membership
  import opened Fencing
  import opened Runs

  /** Every leased Task is the entry of its lease id. */
  ghost predicate ActiveCovers(tasks: map<nat, Task>, active: map<nat, nat>) {
    forall t :: t in tasks && tasks[t].state.Leased? ==>
      tasks[t].state.lease.leaseId in active && active[tasks[t].state.lease.leaseId] == t
  }

  /** Every entry of the lease index is a live lease under that id. */
  ghost predicate ActiveLive(tasks: map<nat, Task>, active: map<nat, nat>) {
    forall l :: l in active ==>
      active[l] in tasks && tasks[active[l]].state.Leased? && tasks[active[l]].state.lease.leaseId == l
  }

  function HolderOf(l: Lease): (nat, nat) {
    (l.group, l.owner)
  }

  /** Every leased Task is listed under its holder, unless that is one of `gone`. */
  ghost predicate HeldCovers(tasks: map<nat, Task>, held: map<(nat, nat), set<nat>>, gone: set<(nat, nat)>) {
    forall t :: t in tasks && tasks[t].state.Leased? && HolderOf(tasks[t].state.lease) !in gone ==>
      t in LeasesOf(held, HolderOf(tasks[t].state.lease))
  }

  ghost predicate Covered(m: Machine, gone: set<(nat, nat)>) {
    && ActiveCovers(m.state.tasks, m.active) && ActiveLive(m.state.tasks, m.active)
    && HeldCovers(m.state.tasks, m.held, gone)
  }

  lemma CoveredUnique(m: Machine)
    requires Covered(m, {})
    ensures UniqueLeases(m.state.tasks)
  {}

  lemma SameCovered(m: Machine, m': Machine, gone: set<(nat, nat)>)
    requires Covered(m, gone) && m'.state.tasks == m.state.tasks && m'.active == m.active && m'.held == m.held
    ensures Covered(m', gone)
  {}

  lemma RequeueCovered(m: Machine, t: nat, ns: nat, gone: set<(nat, nat)>)
    requires Covered(m, gone) && t in m.state.tasks && m.state.tasks[t].state.Leased?
    ensures Covered(RequeueOne(m, t, ns), gone)
  {}

  // ---- Recovery ----

  lemma {:induction false} RecoveryCovered(m: Machine, ns: nat, ids: set<nat>, now: nat, count: nat)
    requires Covered(m, {})
    ensures Covered(RequeueExpired(m, ns, ids, now, count).m, {})
    ensures RequeueExpired(m, ns, ids, now, count).m.active.Keys <= m.active.Keys
    decreases |ids|
  {
    hide Covered;
    if ids != {} {
      var t := MinId(ids);
      MinIdIn(ids);
      if t in m.state.tasks && RequeueIfExpired(m.state.tasks[t], now).Ok? &&
         RequeueIfExpired(m.state.tasks[t], now).value.1 {
        RequeueCovered(m, t, ns, {});
        RecoveryCovered(RequeueOne(m, t, ns), ns, ids - {t}, now, count + 1);
      } else {
        RecoveryCovered(m, ns, ids - {t}, now, count);
      }
    }
  }

  lemma RecoverCovered(m: Machine, ns: nat, now: nat)
    requires Covered(m, {})
    ensures Covered(RecoverExpired(m, ns, now).m, {}) && RecoverExpired(m, ns, now).m.active.Keys <= m.active.Keys
  {
    hide RequeueExpired, Drain, Due, Covered;
    if ns in m.expirations {
      var m' := m.(expirations := m.expirations[ns := Drain(m.expirations[ns], now)]);
      SameCovered(m, m', {});
      RecoveryCovered(m', ns, Due(m.expirations[ns], m.state.tasks, now), now, 0);
    }
  }

  lemma LendCovered(m: Machine, c: Command, ns: nat, t: nat)
    requires c.ClaimTask? && Covered(m, {}) && c.lease !in m.active
    ensures Covered(GrantLease(m, c, ns, t).m, {})
  {
    hide Push, ClaimReplyOf, LeaseKey;
  }

  lemma FreshCovered(m: Machine, c: Command, ns: nat)
    requires c.ClaimTask? && Covered(m, {}) && c.lease !in m.active
    ensures Covered(ClaimFresh(m, c, ns).m, {})
  {
    hide RecoverExpired, PopReady, GrantLease, HeapAt, Covered;
    RecoverCovered(m, ns, c.now);
    var rec := RecoverExpired(m, ns, c.now);
    var (heap, popped) := PopReady(HeapAt(rec.m.ready, ns), rec.m.state.tasks);
    var m' := if ns in rec.m.ready then rec.m.(ready := rec.m.ready[ns := heap]) else rec.m;
    SameCovered(rec.m, m', {});
    if popped.Some? {
      LendCovered(m', c, ns, popped.value);
    }
    SameCovered(rec.m, m'.(state := m'.state.(revision := m'.state.revision + 1)), {});
  }

  lemma ClaimCovered(m: Machine, c: Command)
    requires c.ClaimTask? && Covered(m, {})
    ensures Covered(ClaimRun(m, c).m, {})
  {
    hide ClaimFresh, Covered;
    if c.group in m.state.groups && c.lease !in m.active {
      FreshCovered(m, c, m.state.groups[c.group].ns);
    }
  }

  // ---- Departure ----

  ghost predicate NoneHeld(tasks: map<nat, Task>, group: nat, member: nat) {
    forall t :: t in tasks ==> !HeldBy(tasks[t], group, member)
  }

  /** Whatever the holder still has is in `ids` and can be requeued. */
  ghost predicate Sweepable(tasks: map<nat, Task>, group: nat, member: nat, ids: set<nat>) {
    forall t :: t in tasks && HeldBy(tasks[t], group, member) ==> t in ids && tasks[t].revision < U64_MAX
  }

  lemma SweepsOne(m: Machine, group: nat, member: nat, ids: set<nat>, t: nat)
    requires Sweepable(m.state.tasks, group, member, ids) && (group, member) !in m.held
    requires t in m.state.tasks && HeldBy(m.state.tasks[t], group, member)
    ensures
      var m' := RequeueOne(m, t, m.state.tasks[t].ns);
      Sweepable(m'.state.tasks, group, member, ids - {t}) && m'.held == m.held
  {}

  lemma SkipsOne(tasks: map<nat, Task>, group: nat, member: nat, ids: set<nat>, t: nat)
    requires Sweepable(tasks, group, member, ids) && (t in tasks ==> !HeldBy(tasks[t], group, member))
    ensures Sweepable(tasks, group, member, ids - {t})
  {}

  lemma SweptOut(tasks: map<nat, Task>, group: nat, member: nat)
    requires Sweepable(tasks, group, member, {})
    ensures NoneHeld(tasks, group, member)
  {}

  lemma {:induction false} HeldSwept(m: Machine, group: nat, member: nat, ids: set<nat>)
    requires Covered(m, {(group, member)}) && Sweepable(m.state.tasks, group, member, ids) && (group, member) !in m.held
    ensures
      var r := RequeueHeld(m, group, member, ids);
      && r.failed.None? && Covered(r.m, {(group, member)}) && NoneHeld(r.m.state.tasks, group, member)
      && r.m.held == m.held
    decreases |ids|
  {
    if ids == {} {
      SweptOut(m.state.tasks, group, member);
    } else {
      var t := MinId(ids);
      MinIdIn(ids);
      assert t in m.state.tasks && HeldBy(m.state.tasks[t], group, member) ==> m.state.tasks[t].revision < U64_MAX;
      hide Covered, Sweepable, NoneHeld, RequeueOne;
      if t !in m.state.tasks || !HeldBy(m.state.tasks[t], group, member) {
        SkipsOne(m.state.tasks, group, member, ids, t);
        HeldSwept(m, group, member, ids - {t});
      } else {
        RequeueCovered(m, t, m.state.tasks[t].ns, {(group, member)});
        SweepsOne(m, group, member, ids, t);
        HeldSwept(RequeueOne(m, t, m.state.tasks[t].ns), group, member, ids - {t});
      }
    }
  }

  lemma PreflightSweeps(m: Machine, group: nat, member: nat)
    requires Covered(m, {}) && Preflight(m, group, member)
    ensures Sweepable(m.state.tasks, group, member, LeasesOf(m.held, (group, member)))
    ensures Covered(m.(held := m.held - {(group, member)}), {(group, member)})
  {}

  lemma NobodyGone(m: Machine, group: nat, member: nat)
    requires Covered(m, {(group, member)}) && NoneHeld(m.state.tasks, group, member)
    ensures Covered(m, {})
  {
    forall t | t in m.state.tasks && m.state.tasks[t].state.Leased?
      ensures HolderOf(m.state.tasks[t].state.lease) != (group, member)
    {
      assert !HeldBy(m.state.tasks[t], group, member);
    }
  }

  /** After its preflight a member loses all its leases, and every other lease is still found. */
  lemma MemberSwept(m: Machine, group: nat, member: nat)
    requires Covered(m, {}) && Preflight(m, group, member)
    ensures
      var r := RequeueMember(m, group, member);
      && r.failed.None? && Covered(r.m, {}) && NoneHeld(r.m.state.tasks, group, member)
      && r.m.held == m.held - {(group, member)}
  {
    hide Covered, RequeueHeld, Preflight, NoneHeld, Sweepable;
    var key := (group, member);
    PreflightSweeps(m, group, member);
    HeldSwept(m.(held := m.held - {key}), group, member, LeasesOf(m.held, key));
    NobodyGone(RequeueMember(m, group, member).m, group, member);
  }

  /** Tasks only lose leases, and the lists of other holders are as they were. */
  ghost predicate OnlyRequeues(m: Machine, m': Machine) {
    && (forall t :: t in m'.state.tasks ==> t in m.state.tasks && Touched(m.state.tasks[t], m'.state.tasks[t]))
    && (forall key: (nat, nat) :: key in m'.held ==> key in m.held && m'.held[key] == m.held[key])
  }

  lemma StillPreflight(m: Machine, m': Machine, group: nat, member: nat)
    requires OnlyRequeues(m, m') && Preflight(m, group, member)
    ensures Preflight(m', group, member)
  {}

  lemma StillNoneHeld(m: Machine, m': Machine, group: nat, member: nat)
    requires OnlyRequeues(m, m') && NoneHeld(m.state.tasks, group, member)
    ensures NoneHeld(m'.state.tasks, group, member)
  {}

  lemma RequeuesCompose(a: Machine, b: Machine, c: Machine)
    requires OnlyRequeues(a, b) && OnlyRequeues(b, c)
    ensures OnlyRequeues(a, c)
  {}

  lemma MemberRequeues(m: Machine, group: nat, member: nat)
    requires Covered(m, {}) && Preflight(m, group, member)
    ensures OnlyRequeues(m, RequeueMember(m, group, member).m)
  {
    hide Covered, RequeueHeld, Preflight, NoneHeld, Touched;
    MemberSwept(m, group, member);
    var key := (group, member);
    var m' := RequeueMember(m, group, member).m;
    forall t | t in m'.state.tasks ensures t in m.state.tasks && Touched(m.state.tasks[t], m'.state.tasks[t]) {
      HeldTouches(m.(held := m.held - {key}), group, member, LeasesOf(m.held, key), t);
    }
  }

  lemma {:induction false} RemovedSwept(m: Machine, group: nat, removed: set<Key>)
    requires Covered(m, {}) && forall k | k in removed :: Preflight(m, group, k.id)
    ensures
      var r := RequeueRemoved(m, group, removed);
      && r.failed.None? && Covered(r.m, {}) && OnlyRequeues(m, r.m)
      && forall k | k in removed :: NoneHeld(r.m.state.tasks, group, k.id)
    decreases |removed|
  {
    hide Covered, RequeueMember, Preflight, NoneHeld, OnlyRequeues;
    if removed == {} {
      NothingRequeued(m);
    } else {
      var k := MinKey(removed);
      MemberSwept(m, group, k.id);
      MemberRequeues(m, group, k.id);
      var m1 := RequeueMember(m, group, k.id).m;
      forall j | j in removed - {k} ensures Preflight(m1, group, j.id) {
        StillPreflight(m, m1, group, j.id);
      }
      RemovedSwept(m1, group, removed - {k});
      var m2 := RequeueRemoved(m1, group, removed - {k}).m;
      StillNoneHeld(m1, m2, group, k.id);
      RequeuesCompose(m, m1, m2);
    }
  }

  lemma NothingRequeued(m: Machine)
    ensures OnlyRequeues(m, m)
  {}

  // ---- Reaping ----

  /** Every selected member of these groups passed its preflight. */
  ghost predicate AllPreflight(m: Machine, selected: set<Key>, ids: set<nat>) {
    forall k | k in selected && k.id in ids :: Preflight(m, k.id, k.tag)
  }

  /** No selected member of these groups holds anything. */
  ghost predicate AllReleased(tasks: map<nat, Task>, selected: set<Key>, ids: set<nat>) {
    forall k | k in selected && k.id in ids :: NoneHeld(tasks, k.id, k.tag)
  }

  lemma LocalPreflight(m: Machine, selected: set<Key>, g: nat)
    requires AllPreflight(m, selected, {g})
    ensures forall j | j in Local(KeysOf(selected, g)) :: Preflight(m, g, j.id)
  {
    hide Preflight;
  }

  lemma LocalReleased(tasks: map<nat, Task>, selected: set<Key>, g: nat)
    requires forall j | j in Local(KeysOf(selected, g)) :: NoneHeld(tasks, g, j.id)
    ensures AllReleased(tasks, selected, {g})
  {
    hide NoneHeld;
    forall k | k in selected && k.id in {g} ensures NoneHeld(tasks, k.id, k.tag) {
      assert k in KeysOf(selected, g) && Key(k.at, k.tag, 0) in Local(KeysOf(selected, g));
    }
  }

  lemma RegroupedPreflight(m: Machine, groups: map<nat, Group>, group: nat, member: nat)
    requires Preflight(m, group, member)
    ensures Preflight(m.(state := m.state.(groups := groups)), group, member)
  {}

  lemma RegroupedRequeues(m: Machine, groups: map<nat, Group>, m': Machine)
    requires OnlyRequeues(m.(state := m.state.(groups := groups)), m')
    ensures OnlyRequeues(m, m')
  {}

  lemma TurnSwept(m: Machine, groups: map<nat, Group>, before: nat, max: nat, g: nat)
    requires Covered(m, {}) && Untouched(m, groups, {g}) && CanAdvance(groups, {g})
    requires g in AffectedGroups(FirstN(StaleKeys(groups, before), max))
    requires AllPreflight(m, FirstN(StaleKeys(groups, before), max), {g})
    ensures
      var selected := FirstN(StaleKeys(groups, before), max);
      var turn := ReapTurn(m, selected, g, before);
      && turn.failed.None? && Covered(turn.m, {}) && OnlyRequeues(m, turn.m)
      && turn.m.state.groups == m.state.groups[g := Without(groups[g], MembersOf(selected, g))]
      && AllReleased(turn.m.state.tasks, selected, {g})
  {
    assert g in {g} && g in groups && m.state.groups[g] == groups[g];
    hide Covered, FirstN, StaleKeys, AffectedGroups, Preflight, NoneHeld, OnlyRequeues, RequeueRemoved, MembersOf,
      Local, KeysOf, AllPreflight, AllReleased, Without;
    var selected := FirstN(StaleKeys(groups, before), max);
    var removed := Local(KeysOf(selected, g));
    ReapGroupSelected(groups, before, max, g);
    LocalPreflight(m, selected, g);
    var rest := m.state.groups[g := Without(groups[g], MembersOf(selected, g))];
    var reduced := m.(state := m.state.(groups := rest));
    SameCovered(m, reduced, {});
    forall j | j in removed ensures Preflight(reduced, g, j.id) {
      RegroupedPreflight(m, rest, g, j.id);
    }
    RemovedSwept(reduced, g, removed);
    RemovedOnly(reduced, g, removed);
    var m' := RequeueRemoved(reduced, g, removed).m;
    RegroupedRequeues(m, rest, m');
    LocalReleased(m'.state.tasks, selected, g);
  }

  lemma LaterPreflight(m: Machine, m': Machine, selected: set<Key>, ids: set<nat>, g: nat)
    requires AllPreflight(m, selected, ids) && OnlyRequeues(m, m')
    ensures AllPreflight(m', selected, ids - {g})
  {
    hide Preflight, OnlyRequeues;
    forall k | k in selected && k.id in ids - {g} ensures Preflight(m', k.id, k.tag) {
      StillPreflight(m, m', k.id, k.tag);
    }
  }

  lemma LaterReleased(m: Machine, m': Machine, selected: set<Key>, ids: set<nat>, g: nat)
    requires OnlyRequeues(m, m') && AllReleased(m.state.tasks, selected, {g}) && g in ids
    requires AllReleased(m'.state.tasks, selected, ids - {g})
    ensures AllReleased(m'.state.tasks, selected, ids)
  {
    hide NoneHeld, OnlyRequeues;
    forall k | k in selected && k.id in ids ensures NoneHeld(m'.state.tasks, k.id, k.tag) {
      if k.id == g {
        StillNoneHeld(m, m', k.id, k.tag);
      }
    }
  }

  lemma {:induction false} ReapSwept(
    m: Machine, groups: map<nat, Group>, before: nat, max: nat, ids: set<nat>, count: nat, affected: set<nat>)
    requires Covered(m, {}) && Untouched(m, groups, ids) && CanAdvance(groups, ids)
    requires ids <= AffectedGroups(FirstN(StaleKeys(groups, before), max))
    requires AllPreflight(m, FirstN(StaleKeys(groups, before), max), ids)
    ensures
      var selected := FirstN(StaleKeys(groups, before), max);
      var r := ReapGroups(m, selected, ids, before, count, affected);
      && r.failed.None? && Covered(r.m, {}) && OnlyRequeues(m, r.m)
      && r.m.state.groups == ReapedGroups(m.state.groups, selected, ids)
      && AllReleased(r.m.state.tasks, selected, ids)
    decreases |ids|
  {
    hide Covered, FirstN, StaleKeys, AffectedGroups, OnlyRequeues, MembersOf, AllPreflight, AllReleased, Without,
      ReapTurn, ReapedGroups;
    var selected := FirstN(StaleKeys(groups, before), max);
    if ids == {} {
      NothingRequeued(m);
      NobodyReleased(m.state.tasks, selected);
      NobodyReaped(m.state.groups, selected);
    } else {
      var g := MinId(ids);
      MinIdIn(ids);
      OnePreflight(m, selected, ids, g);
      TurnSwept(m, groups, before, max, g);
      var turn := ReapTurn(m, selected, g, before);
      LaterPreflight(m, turn.m, selected, ids, g);
      var affected' := if turn.removed == {} then affected else affected + {g};
      ReapSwept(turn.m, groups, before, max, ids - {g}, count + |turn.removed|, affected');
      var m' := ReapGroups(turn.m, selected, ids - {g}, before, count + |turn.removed|, affected').m;
      LaterReleased(turn.m, m', selected, ids, g);
      RequeuesCompose(m, turn.m, m');
      ReapedAfterOne(m.state.groups, selected, ids, g);
    }
  }

  lemma NobodyReaped(groups: map<nat, Group>, selected: set<Key>)
    ensures ReapedGroups(groups, selected, {}) == groups
  {}

  lemma ReapedAfterOne(groups: map<nat, Group>, selected: set<Key>, ids: set<nat>, g: nat)
    requires g in ids && g in groups
    ensures ReapedGroups(groups[g := Without(groups[g], MembersOf(selected, g))], selected, ids - {g}) ==
              ReapedGroups(groups, selected, ids)
  {
    hide Without, MembersOf;
  }

  lemma OnePreflight(m: Machine, selected: set<Key>, ids: set<nat>, g: nat)
    requires AllPreflight(m, selected, ids) && g in ids
    ensures AllPreflight(m, selected, {g})
  {
    hide Preflight;
  }

  lemma NobodyReleased(tasks: map<nat, Task>, selected: set<Key>)
    ensures AllReleased(tasks, selected, {})
  {}

  lemma ReapCovered(m: Machine, before: nat, max: nat)
    requires Covered(m, {})
    ensures Covered(ReapRun(m, before, max).m, {})
    ensures
      var selected := FirstN(StaleKeys(m.state.groups, before), max);
      var s' := ReapRun(m, before, max).m.state;
      s'.groups != m.state.groups ==>
        && s'.groups == ReapedGroups(m.state.groups, selected, AffectedGroups(selected))
        && AllReleased(s'.tasks, selected, AffectedGroups(selected))
  {
    hide Covered, FirstN, StaleKeys, OnlyRequeues, MembersOf, AllReleased, ReapGroups, AffectedGroups, Preflight,
      CanAdvance, ReapedGroups;
    var selected := FirstN(StaleKeys(m.state.groups, before), max);
    if max > 0 && selected != {} && m.state.revision < U64_MAX &&
       CanAdvance(m.state.groups, AffectedGroups(selected)) &&
       forall k | k in selected :: Preflight(m, k.id, k.tag) {
      AffectedAreGroups(m.state.groups, before, selected);
      ReapSwept(m, m.state.groups, before, max, AffectedGroups(selected), 0, {});
      var r := ReapGroups(m, selected, AffectedGroups(selected), before, 0, {});
      SameCovered(r.m, ReapFinish(m, r).m, {});
    }
  }

  lemma LeaveCovered(m: Machine, c: Command)
    requires c.LeaveGroup? && Covered(m, {})
    ensures Covered(LeaveRun(m, c).m, {})
    ensures
      var s' := LeaveRun(m, c).m.state;
      s'.groups != m.state.groups ==>
        && c.group in m.state.groups
        && s'.groups == m.state.groups[c.group := Without(m.state.groups[c.group], {c.member})]
        && NoneHeld(s'.tasks, c.group, c.member)
  {
    hide Covered, RequeueMember, Preflight, NoneHeld, Without;
    if m.state.revision < U64_MAX && Preflight(m, c.group, c.member) && c.group in m.state.groups {
      var left := Groups.LeaveGroup(m.state.groups[c.group], c.member, c.expectedGeneration);
      if left.Ok? {
        var rest := m.state.groups[c.group := left.value];
        var gone := m.(state := m.state.(groups := rest));
        SameCovered(m, gone, {});
        RegroupedPreflight(m, rest, c.group, c.member);
        MemberSwept(gone, c.group, c.member);
        MemberOnly(gone, c.group, c.member);
        var swept := RequeueMember(gone, c.group, c.member);
        SameCovered(swept.m, LeaveFinish(m, c, left.value, swept).m, {});
      }
    }
  }

  lemma MemberOnly(m: Machine, group: nat, member: nat)
    ensures OnlyTasks(m, RequeueMember(m, group, member).m)
  {
    hide RequeueHeld;
    var key := (group, member);
    HeldOnly(m.(held := m.held - {key}), group, member, LeasesOf(m.held, key));
  }

  // ---- The other commands ----

  lemma ExtendedCovered(m: Machine, m': Machine, t: nat, task: Task)
    requires Covered(m, {}) && m'.active == m.active && m'.held == m.held && m'.state.tasks == m.state.tasks[t := task]
    requires t in m.state.tasks && m.state.tasks[t].state.Leased? && task.state.Leased?
    requires task.state.lease == m.state.tasks[t].state.lease.(expiresAt := task.state.lease.expiresAt)
    ensures Covered(m', {})
  {}

  lemma RenewCovered(m: Machine, c: Command)
    requires c.RenewLease? && Covered(m, {})
    ensures Covered(RenewRun(m, c).m, {})
  {
    hide RenewStep, Push, Covered;
    RenewStepIs(m.state, c);
    if RenewStep(m.state, c).reply.Ok? {
      ExtendedCovered(m, RenewRun(m, c).m, c.task, RenewedTask(m.state.tasks[c.task], c.now + c.duration));
    } else {
      SameCovered(m, RenewRun(m, c).m, {});
    }
  }

  lemma FinishedCovered(m: Machine, t: nat, task: Task)
    requires Covered(m, {}) && t in m.state.tasks && m.state.tasks[t].state.Leased? && task.state.Completed?
    ensures Covered(Finished(m, t, task), {})
  {}

  lemma CompleteCovered(m: Machine, c: Command)
    requires c.CompleteTask? && m.changes == NoChanges && Covered(m, {})
    ensures Covered(CompleteRun(m, c).m, {})
  {
    hide Covered, CompleteRun, CompleteStep, Completes, Finished;
    CompleteRunIs(m, c);
    if Completes(m.state, c) {
      FinishedCovered(m, c.task, CompletedTask(m.state.tasks[c.task], c));
    }
  }

  lemma QueuedCovered(m: Machine, m': Machine, t: nat, task: Task)
    requires Covered(m, {}) && !task.state.Leased? && m'.active == m.active && m'.held == m.held
    requires m'.state.tasks == m.state.tasks || (t !in m.state.tasks && m'.state.tasks == m.state.tasks[t := task])
    ensures Covered(m', {})
  {}

  lemma PublishCovered(m: Machine, c: Command)
    requires c.PublishTask? && Covered(m, {})
    ensures Covered(PublishRun(m, c).m, {})
  {
    hide PublishRun, Covered;
    PublishAdds(m, c);
    QueuedCovered(m, PublishRun(m, c).m, c.task, NewTask(c.ns, c.objective, c.createdAt));
  }

  lemma FewerCovered(m: Machine, m': Machine)
    requires Covered(m, {}) && m'.active == m.active && m'.held == m.held
    requires forall t :: t in m'.state.tasks ==> t in m.state.tasks && m'.state.tasks[t] == m.state.tasks[t]
    requires forall t :: t in m.state.tasks && m.state.tasks[t].state.Leased? ==> t in m'.state.tasks
    ensures Covered(m', {})
  {}

  lemma PruneCovered(m: Machine, cutoff: nat, max: nat)
    requires Covered(m, {})
    ensures Covered(PruneRun(m, cutoff, max).m, {})
  {
    hide Covered, Probe, Underflows, Destroy;
    var left := |Probe(m.completed, m.state.tasks, cutoff, max)|;
    DestroyOnly(m, left, cutoff, 0);
    var swept := Destroy(m, left, cutoff, 0);
    forall t | t in swept.m.state.tasks ensures t in m.state.tasks && swept.m.state.tasks[t] == m.state.tasks[t] {
      DestroyForgets(m, left, cutoff, 0, t);
    }
    forall t | t in m.state.tasks && m.state.tasks[t].state.Leased? ensures t in swept.m.state.tasks {
      DestroyForgets(m, left, cutoff, 0, t);
    }
    FewerCovered(m, swept.m);
    SameCovered(swept.m, PruneFinish(m, swept).m, {});
  }

  lemma UncountedTasks(s: State, c: Command)
    requires c.EnsureNamespace? || c.JoinGroup? || c.Heartbeat? || c.AdvanceTerm?
    ensures Step(s, c).state.tasks == s.tasks
  {
    hide Groups.JoinGroup, HeartbeatGroup, PublishSpec, EnsureGroupSpec, ClaimStep, RenewStep, CompleteStep, LeaveStep,
      ReapStep, PruneStep;
  }

  lemma EnsureGroupCovered(m: Machine, c: Command)
    requires c.EnsureGroup? && Covered(m, {})
    ensures Covered(EnsureGroupRun(m, c).m, {})
  {
    hide EnsureGroupRun, Covered;
    EnsureGroupAdds(m, c);
    SameCovered(m, EnsureGroupRun(m, c).m, {});
  }

  lemma ExecCovered(m: Machine, c: Command)
    requires Covered(m, {})
    ensures Covered(Exec(m, c).m, {})
  {
    hide Covered, ClaimRun, LeaveRun, ReapRun, PruneRun, PublishRun, EnsureGroupRun, RenewRun, CompleteRun, JoinStep,
      HeartbeatStep, EnsureNamespaceStep, AdvanceTermStep;
    var m' := m.(changes := NoChanges);
    SameCovered(m, m', {});
    match c
    case ClaimTask(_, _, _, _, _, _, _) => ClaimCovered(m', c);
    case LeaveGroup(_, _, _) => LeaveCovered(m', c);
    case ReapStaleMembers(before, max) => ReapCovered(m', before, max);
    case PruneCompleted(cutoff, max) => PruneCovered(m', cutoff, max);
    case PublishTask(_, _, _, _, _) => PublishCovered(m', c);
    case RenewLease(_, _, _, _, _, _, _, _, _) => RenewCovered(m', c);
    case CompleteTask(_, _, _, _, _, _, _, _, _) => CompleteCovered(m', c);
    case EnsureGroup(_, _, _) => EnsureGroupCovered(m', c);
    case _ => UncountedTasks(m.state, c); SameCovered(m, Exec(m, c).m, {});
  }

  // ---- Every state survives a checkpoint ----

  ghost predicate GroupsSound(groups: map<nat, Group>, namespaces: map<nat, nat>) {
    forall g :: g in groups ==> GroupSound(groups[g], namespaces)
  }

  ghost predicate TasksSound(tasks: map<nat, Task>, namespaces: map<nat, nat>) {
    forall t :: t in tasks ==> TaskSound(tasks[t], namespaces)
  }

  predicate NamespacesSound(namespaces: map<nat, nat>) {
    forall n | n in namespaces :: namespaces[n] > 0
  }

  /** Positive revisions, known namespaces, and every lease found under its id and its holder. */
  ghost predicate Kept(m: Machine) {
    && NamespacesSound(m.state.namespaces) && TasksSound(m.state.tasks, m.state.namespaces)
    && GroupsSound(m.state.groups, m.state.namespaces) && Covered(m, {})
  }

  lemma KeptRestorable(m: Machine)
    requires Kept(m)
    ensures Restorable(m.state)
  {
    CoveredUnique(m);
  }

  /** Nothing but a new namespace is ever added, and none is lost. */
  lemma ExecNamespaces(m: Machine, c: Command)
    ensures
      var s' := Exec(m, c).m.state;
      && m.state.namespaces.Keys <= s'.namespaces.Keys
      && (NamespacesSound(m.state.namespaces) ==> NamespacesSound(s'.namespaces))
  {
    hide ClaimRun, LeaveRun, ReapRun, PruneRun, PublishRun, EnsureGroupRun, RenewRun, CompleteRun, JoinStep,
      HeartbeatStep, AdvanceTermStep;
    var m' := m.(changes := NoChanges);
    match c
    case ClaimTask(_, _, _, _, _, _, _) => ClaimKeepsNamespaces(m', c);
    case LeaveGroup(_, _, _) => LeaveKeepsNamespaces(m', c);
    case ReapStaleMembers(before, max) => ReapKeepsNamespaces(m', before, max);
    case PruneCompleted(cutoff, max) => PruneKeepsNamespaces(m', cutoff, max);
    case EnsureNamespace(_, _) =>
    case _ => OthersKeepNamespaces(m', c);
  }

  lemma ClaimKeepsNamespaces(m: Machine, c: Command)
    requires c.ClaimTask?
    ensures ClaimRun(m, c).m.state.namespaces == m.state.namespaces
  {
    hide ClaimFresh;
    if c.group in m.state.groups {
      FreshKeepsNamespaces(m, c, m.state.groups[c.group].ns);
    }
  }

  lemma FreshKeepsNamespaces(m: Machine, c: Command, ns: nat)
    requires c.ClaimTask?
    ensures ClaimFresh(m, c, ns).m.state.namespaces == m.state.namespaces
  {
    hide RequeueExpired, PopReady, Drain, Due, Push, AddHeld, ClaimReplyOf;
    if ns in m.expirations {
      RecoveryOnly(m.(expirations := m.expirations[ns := Drain(m.expirations[ns], c.now)]), ns,
                   Due(m.expirations[ns], m.state.tasks, c.now), c.now, 0);
    }
  }

  lemma LeaveKeepsNamespaces(m: Machine, c: Command)
    requires c.LeaveGroup?
    ensures LeaveRun(m, c).m.state.namespaces == m.state.namespaces
  {
    hide RequeueMember, Preflight, Groups.LeaveGroup;
    if c.group in m.state.groups {
      var left := Groups.LeaveGroup(m.state.groups[c.group], c.member, c.expectedGeneration);
      if left.Ok? {
        MemberOnly(m.(state := m.state.(groups := m.state.groups[c.group := left.value])), c.group, c.member);
      }
    }
  }

  lemma ReapKeepsNamespaces(m: Machine, before: nat, max: nat)
    ensures ReapRun(m, before, max).m.state.namespaces == m.state.namespaces
  {
    hide ReapGroups, FirstN, StaleKeys, Preflight, CanAdvance, AffectedGroups;
    var selected := FirstN(StaleKeys(m.state.groups, before), max);
    ReapOnly(m, selected, AffectedGroups(selected), before, 0, {});
  }

  lemma PruneKeepsNamespaces(m: Machine, cutoff: nat, max: nat)
    ensures PruneRun(m, cutoff, max).m.state.namespaces == m.state.namespaces
  {
    hide Probe, Underflows, Destroy;
    DestroyOnly(m, |Probe(m.completed, m.state.tasks, cutoff, max)|, cutoff, 0);
  }

  lemma StepKeepsNamespaces(s: State, c: Command)
    requires c.RenewLease? || c.CompleteTask? || c.JoinGroup? || c.Heartbeat? || c.AdvanceTerm?
    ensures Step(s, c).state.namespaces == s.namespaces
  {
    hide Groups.JoinGroup, HeartbeatGroup, RenewTask, Tasks.CompleteTask, Admit, PublishSpec, EnsureGroupSpec,
      ClaimStep, LeaveStep, ReapStep, PruneStep;
  }

  lemma OthersKeepNamespaces(m: Machine, c: Command)
    requires c.PublishTask? || c.EnsureGroup? || c.RenewLease? || c.CompleteTask? || c.JoinGroup? || c.Heartbeat? ||
             c.AdvanceTerm?
    ensures Exec(m, c).m.state.namespaces == m.state.namespaces
  {
    hide PublishRun, EnsureGroupRun, RenewRun, CompleteRun, JoinStep, HeartbeatStep, AdvanceTermStep, Step;
    if c.PublishTask? {
      PublishAdds(m.(changes := NoChanges), c);
    } else if c.EnsureGroup? {
      EnsureGroupAdds(m.(changes := NoChanges), c);
    } else {
      hide Exec;
      IndexFree(m, c);
      StepKeepsNamespaces(m.state, c);
    }
  }

  lemma MovedSound(s: State, c: Command, s': State, t: nat)
    requires Lawful(s, c, s', t) && TasksSound(s.tasks, s.namespaces) && s.namespaces.Keys <= s'.namespaces.Keys
    requires t in s'.tasks && (t !in s.tasks && c.PublishTask? ==> c.ns in s.namespaces)
    ensures TaskSound(s'.tasks[t], s'.namespaces)
  {
    hide Renews, Completes, ReapsOwner;
  }

  lemma PublishesKnown(m: Machine, c: Command, t: nat)
    requires c.PublishTask? && t in Exec(m, c).m.state.tasks && t !in m.state.tasks
    requires Lawful(m.state, c, Exec(m, c).m.state, t)
    ensures c.ns in m.state.namespaces
  {
    hide PublishRun;
    PublishAdds(m.(changes := NoChanges), c);
  }

  lemma ExecTasksSound(m: Machine, c: Command)
    requires TasksSound(m.state.tasks, m.state.namespaces)
    ensures TasksSound(Exec(m, c).m.state.tasks, Exec(m, c).m.state.namespaces)
  {
    hide Exec, Lawful, TaskSound;
    ExecNamespaces(m, c);
    var s' := Exec(m, c).m.state;
    forall t | t in s'.tasks ensures TaskSound(s'.tasks[t], s'.namespaces) {
      ExecLawful(m, c, t);
      if c.PublishTask? && t !in m.state.tasks {
        PublishesKnown(m, c, t);
      }
      MovedSound(m.state, c, s', t);
    }
  }

  lemma MoreNamespaces(groups: map<nat, Group>, a: map<nat, nat>, b: map<nat, nat>)
    requires GroupsSound(groups, a) && a.Keys <= b.Keys
    ensures GroupsSound(groups, b)
  {}

  lemma GroupSetSound(groups: map<nat, Group>, namespaces: map<nat, nat>, g: nat, group: Group)
    requires GroupsSound(groups, namespaces) && GroupSound(group, namespaces)
    ensures GroupsSound(groups[g := group], namespaces)
  {}

  lemma WithoutSound(g: Group, members: set<nat>, namespaces: map<nat, nat>)
    requires GroupSound(g, namespaces)
    ensures GroupSound(Without(g, members), namespaces)
  {}

  lemma ReapedGroupsSound(groups: map<nat, Group>, namespaces: map<nat, nat>, selected: set<Key>, ids: set<nat>)
    requires GroupsSound(groups, namespaces)
    ensures GroupsSound(ReapedGroups(groups, selected, ids), namespaces)
  {
    hide GroupSound, MembersOf, Without;
    forall g | g in groups ensures GroupSound(Without(groups[g], MembersOf(selected, g)), namespaces) {
      WithoutSound(groups[g], MembersOf(selected, g), namespaces);
    }
  }

  lemma HeartbeatGroupSound(g: Group, member: nat, generation: nat, now: nat, namespaces: map<nat, nat>)
    requires GroupSound(g, namespaces)
    ensures HeartbeatGroup(g, member, generation, now).Ok? ==>
              GroupSound(HeartbeatGroup(g, member, generation, now).value.0, namespaces)
  {}

  lemma JoinGroupsSound(s: State, c: Command)
    requires (c.JoinGroup? || c.Heartbeat?) && GroupsSound(s.groups, s.namespaces)
    ensures GroupsSound(Step(s, c).state.groups, s.namespaces)
  {
    hide GroupsSound, GroupSound, Groups.JoinGroup, HeartbeatGroup;
    if c.group in s.groups {
      GroupOfSound(s.groups, s.namespaces, c.group);
      var g := s.groups[c.group];
      if c.JoinGroup? {
        JoinedSound(g, c.member, c.capabilities, c.now, c.maxMembers, s.namespaces);
        var r := Groups.JoinGroup(g, c.member, c.capabilities, c.now, c.maxMembers);
        if r.Ok? {
          GroupSetSound(s.groups, s.namespaces, c.group, r.value.0);
        }
      } else {
        HeartbeatGroupSound(g, c.member, c.expectedGeneration, c.now, s.namespaces);
        var r := HeartbeatGroup(g, c.member, c.expectedGeneration, c.now);
        if r.Ok? {
          GroupSetSound(s.groups, s.namespaces, c.group, r.value.0);
        }
      }
    }
  }

  lemma GroupOfSound(groups: map<nat, Group>, namespaces: map<nat, nat>, g: nat)
    requires GroupsSound(groups, namespaces) && g in groups
    ensures GroupSound(groups[g], namespaces)
  {}

  lemma NewGroupSound(ns: nat, namespaces: map<nat, nat>)
    requires ns in namespaces
    ensures GroupSound(NewGroup(ns), namespaces)
  {}

  lemma UngroupedKeepGroups(s: State, c: Command)
    requires c.EnsureNamespace? || c.AdvanceTerm?
    ensures Step(s, c).state.groups == s.groups
  {}

  lemma ExecGroupsSound(m: Machine, c: Command)
    requires GroupsSound(m.state.groups, m.state.namespaces) && Covered(m, {})
    ensures GroupsSound(Exec(m, c).m.state.groups, Exec(m, c).m.state.namespaces)
  {
    ExecNamespaces(m, c);
    hide GroupsSound, GroupSound, Covered, ClaimRun, LeaveRun, ReapRun, PruneRun, PublishRun, EnsureGroupRun, RenewRun,
      CompleteRun, JoinStep, HeartbeatStep, EnsureNamespaceStep, AdvanceTermStep, FirstN, StaleKeys, ReapedGroups,
      Without, NoneHeld, AllReleased, AffectedGroups;
    var m', groups, ns := m.(changes := NoChanges), m.state.groups, m.state.namespaces;
    SameCovered(m, m', {});
    match c {
      case ClaimTask(_, _, _, _, _, _, _) => ClaimRunKeepsGroups(m', c);
      case LeaveGroup(_, _, _) =>
        LeaveCovered(m', c);
        if c.group in groups {
          GroupOfSound(groups, ns, c.group);
          WithoutSound(groups[c.group], {c.member}, ns);
          GroupSetSound(groups, ns, c.group, Without(groups[c.group], {c.member}));
        }
      case ReapStaleMembers(before, max) =>
        ReapCovered(m', before, max);
        var selected := FirstN(StaleKeys(groups, before), max);
        ReapedGroupsSound(groups, ns, selected, AffectedGroups(selected));
      case PruneCompleted(cutoff, max) => PruneRunKeepsGroups(m', cutoff, max);
      case PublishTask(_, _, _, _, _) => PublishAdds(m', c);
      case RenewLease(_, _, _, _, _, _, _, _, _) => RenewRunKeepsGroups(m', c);
      case CompleteTask(_, _, _, _, _, _, _, _, _) => CompleteRunKeepsGroups(m', c);
      case EnsureGroup(_, _, _) =>
        EnsureGroupAdds(m', c);
        if c.ns in ns {
          NewGroupSound(c.ns, ns);
          GroupSetSound(groups, ns, c.group, NewGroup(c.ns));
        }
      case JoinGroup(_, _, _, _, _) => JoinGroupsSound(m.state, c);
      case Heartbeat(_, _, _, _) => JoinGroupsSound(m.state, c);
      case EnsureNamespace(_, _) => UngroupedKeepGroups(m.state, c);
      case AdvanceTerm(_, _) => UngroupedKeepGroups(m.state, c);
    }
    MoreNamespaces(Exec(m, c).m.state.groups, ns, Exec(m, c).m.state.namespaces);
  }

  /** Every command of any such machine keeps it such, whether it meets a hazard or not. */
  lemma ExecKept(m: Machine, c: Command)
    requires Kept(m)
    ensures Kept(Exec(m, c).m)
  {
    hide Exec, Covered, TasksSound, GroupsSound, NamespacesSound;
    ExecNamespaces(m, c);
    ExecTasksSound(m, c);
    ExecGroupsSound(m, c);
    ExecCovered(m, c);
  }

  lemma {:induction false} RunKept(m: Machine, log: seq<Command>)
    requires Kept(m)
    ensures Kept(After(m, log))
    decreases |log|
  {
    hide Exec, Kept;
    if log != [] {
      ExecKept(m, log[0]);
      RunKept(Exec(m, log[0]).m, log[1..]);
    }
  }

  lemma EmptyIsKept()
    ensures Kept(EmptyMachine)
  {}

  /** Every state that the machine reaches by any log at all survives export and restore. */
  lemma EveryStateRestores(log: seq<Command>)
    ensures
      var s := After(EmptyMachine, log).state;
      Restorable(s) && FromCheckpoint(Export(s)).Ok? && FromCheckpoint(Export(s)).value.state == s
  {
    hide Kept, After, FromCheckpoint, Export, Restorable, Rebuild, Clean;
    EmptyIsKept();
    RunKept(EmptyMachine, log);
    KeptRestorable(After(EmptyMachine, log));
    RoundTrip(After(EmptyMachine, log).state);
  }
}
