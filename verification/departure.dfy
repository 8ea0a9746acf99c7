/** Leaving and reaping: a departing member's leases are requeued within the same command. */
module DepartureRefinement {
  import opened Order
  import opened Tasks
  import opened Groups
  import opened BrokerState
  import opened BrokerMachine
  import opened Coherence
  import opened ClaimRefinement

  // ---- One member ----

  predicate AllHeld(tasks: map<nat, Task>, group: nat, member: nat, ids: set<nat>) {
    forall t | t in ids :: t in tasks && HeldBy(tasks[t], group, member)
  }

  lemma RequeueHeldStep(m: Machine, group: nat, member: nat, ids: set<nat>)
    requires ids != {} && AllHeld(m.state.tasks, group, member, ids) && CanRequeue(m.state.tasks, ids)
    ensures
      var t := MinId(ids);
      var m' := RequeueOne(m, t, m.state.tasks[t].ns);
      && RequeueHeld(m, group, member, ids) == RequeueHeld(m', group, member, ids - {t})
      && AllHeld(m'.state.tasks, group, member, ids - {t}) && CanRequeue(m'.state.tasks, ids - {t})
      && SameButTasks(m, m')
  {}

  lemma {:induction false} RequeueHeldResult(m: Machine, group: nat, member: nat, ids: set<nat>)
    requires AllHeld(m.state.tasks, group, member, ids) && CanRequeue(m.state.tasks, ids)
    ensures AllLeased(m.state.tasks, ids)
    ensures
      var r := RequeueHeld(m, group, member, ids);
      && r.failed.None? && SameButTasks(m, r.m)
      && r.m.state.tasks == RequeueAll(m.state.tasks, ids)
      && r.m.changes.tasks == m.changes.tasks + ids
    decreases |ids|
  {
    if ids == {} {
      assert RequeueAll(m.state.tasks, ids) == m.state.tasks;
    } else {
      var t := MinId(ids);
      RequeueHeldStep(m, group, member, ids);
      RequeueHeldResult(RequeueOne(m, t, m.state.tasks[t].ns), group, member, ids - {t});
      assert AllLeased(m.state.tasks, ids);
      RequeueAllStep(m.state.tasks, ids, t);
      assert m.changes.tasks + {t} + (ids - {t}) == m.changes.tasks + ids;
    }
  }

  lemma {:induction false} RequeueHeldAgrees(m: Machine, group: nat, member: nat, ids: set<nat>)
    requires AllHeld(m.state.tasks, group, member, ids) && CanRequeue(m.state.tasks, ids)
    requires Agrees(m, {}, ids)
    ensures Coherent(RequeueHeld(m, group, member, ids).m)
    decreases |ids|
  {
    if ids != {} {
      var t := MinId(ids);
      RequeueAgrees(m, t, {}, ids);
      assert {} - {t} == {};
      RequeueHeldStep(m, group, member, ids);
      RequeueHeldAgrees(RequeueOne(m, t, m.state.tasks[t].ns), group, member, ids - {t});
    }
  }

  lemma LeasesAreHeld(m: Machine, group: nat, member: nat)
    requires HeldOk(m.state.tasks, m.held, {})
    ensures LeasesOf(m.held, (group, member)) == HeldTasks(m.state.tasks, group, member)
    ensures HeldOk(m.state.tasks, m.held - {(group, member)}, HeldTasks(m.state.tasks, group, member))
    ensures Preflight(m, group, member) <==> CanRequeue(m.state.tasks, HeldTasks(m.state.tasks, group, member))
  {}

  /** All of one member's leases, and nothing else, go back in the queue. */
  lemma RequeueMemberRefines(m: Machine, group: nat, member: nat)
    requires Coherent(m) && CanRequeue(m.state.tasks, HeldTasks(m.state.tasks, group, member))
    ensures
      var r := RequeueMember(m, group, member);
      var held := HeldTasks(m.state.tasks, group, member);
      && r.failed.None? && SameButTasks(m, r.m) && Coherent(r.m)
      && r.m.state.tasks == RequeueAll(m.state.tasks, held)
      && r.m.changes.tasks == m.changes.tasks + held
  {
    var held, m' := HeldTasks(m.state.tasks, group, member), m.(held := m.held - {(group, member)});
    LeasesAreHeld(m, group, member);
    RequeueHeldResult(m', group, member, held);
    RequeueHeldAgrees(m', group, member, held);
  }

  // ---- Leave ----

  lemma GroupCountsKept(groups: map<nat, Group>, counts: map<nat, nat>, g: nat, group: Group)
    requires GroupCountsOk(groups, counts) && g in groups && groups[g].ns == group.ns
    ensures GroupCountsOk(groups[g := group], counts)
  {
    forall ns: nat ensures GroupsInNamespace(groups[g := group], ns) == GroupsInNamespace(groups, ns) {}
  }

  lemma RegroupedAgrees(m: Machine, g: nat, group: Group)
    requires Coherent(m) && g in m.state.groups && m.state.groups[g].ns == group.ns
    ensures Coherent(m.(state := m.state.(groups := m.state.groups[g := group])))
  {
    GroupCountsKept(m.state.groups, m.groupCounts, g, group);
  }

  /** What the command commits once nothing refuses it, given what the requeue did. */
  lemma LeaveCommits(m: Machine, c: Command, g: Group, swept: Swept)
    requires c.LeaveGroup? && m.state.revision < U64_MAX
    requires c.group in m.state.groups
    requires Groups.LeaveGroup(m.state.groups[c.group], c.member, c.expectedGeneration) == Ok(g)
    requires CanRequeue(m.state.tasks, HeldTasks(m.state.tasks, c.group, c.member))
    requires swept.failed.None? && swept.m.changes == NoChanges.(tasks := HeldTasks(m.state.tasks, c.group, c.member))
    requires swept.m.state == m.state.(groups := m.state.groups[c.group := g],
                                       tasks := RequeueAll(m.state.tasks, HeldTasks(m.state.tasks, c.group, c.member)))
    ensures
      var o := LeaveStep(m.state, c.group, c.member, c.expectedGeneration);
      LeaveFinish(m, c, g, swept) == Ran(swept.m.(state := o.state, changes := o.changes), o.reply)
  {}

  lemma LeaveRefused(m: Machine, c: Command)
    requires m.changes == NoChanges && c.LeaveGroup?
    requires Preflight(m, c.group, c.member) <==> CanRequeue(m.state.tasks, HeldTasks(m.state.tasks, c.group, c.member))
    requires m.state.revision >= U64_MAX || !Preflight(m, c.group, c.member) || c.group !in m.state.groups ||
             Groups.LeaveGroup(m.state.groups[c.group], c.member, c.expectedGeneration).Err?
    ensures
      var r, o := LeaveRun(m, c), LeaveStep(m.state, c.group, c.member, c.expectedGeneration);
      r == Ran(m, o.reply) && o == Outcome(m.state, NoChanges, o.reply)
  {}

  lemma LeaveRefines(m: Machine, c: Command)
    requires Coherent(m) && m.changes == NoChanges && c.LeaveGroup?
    ensures
      var r, o := LeaveRun(m, c), LeaveStep(m.state, c.group, c.member, c.expectedGeneration);
      && Coherent(r.m) && r.m.state == o.state && r.m.changes == o.changes && r.reply == o.reply
  {
    hide Coherent, Agrees, RequeueMember, Preflight, HeldTasks, CanRequeue, HeldOk;
    Parts(m);
    LeasesAreHeld(m, c.group, c.member);
    if m.state.revision >= U64_MAX || !Preflight(m, c.group, c.member) || c.group !in m.state.groups ||
       Groups.LeaveGroup(m.state.groups[c.group], c.member, c.expectedGeneration).Err? {
      LeaveRefused(m, c);
    } else {
      var g := Groups.LeaveGroup(m.state.groups[c.group], c.member, c.expectedGeneration).value;
      var left := m.(state := m.state.(groups := m.state.groups[c.group := g]));
      RegroupedAgrees(m, c.group, g);
      RequeueMemberRefines(left, c.group, c.member);
      var swept := RequeueMember(left, c.group, c.member);
      LeaveCommits(m, c, g, swept);
      RestatedAgrees(swept.m, m.state.revision + 1, swept.m.changes.(groups := {c.group}));
    }
  }

  // ---- Reap: the members selected globally are the ones each group removes by count ----

  function Local(keys: set<Key>): set<Key> {
    set k | k in keys :: Key(k.at, k.tag, 0)
  }

  lemma {:induction false} LocalSize(keys: set<Key>, g: nat)
    requires forall k :: k in keys ==> k.id == g
    ensures |Local(keys)| == |keys|
  {
    if keys != {} {
      var k := MinKey(keys);
      LocalSize(keys - {k}, g);
      assert Local(keys) == Local(keys - {k}) + {Key(k.at, k.tag, 0)};
      assert Key(k.at, k.tag, 0) !in Local(keys - {k});
    } else {
      assert Local(keys) == {};
    }
  }

  /** The first members overall, restricted to one group, are the first members of that group. */
  lemma SelectedAreFirst(groups: map<nat, Group>, before: nat, max: nat, g: nat)
    requires g in groups
    ensures
      var mine := KeysOf(FirstN(StaleKeys(groups, before), max), g);
      FirstN(StaleIn(groups[g], before), |mine|) == Local(mine)
  {
    var stale := StaleKeys(groups, before);
    var selected := FirstN(stale, max);
    var mine := KeysOf(selected, g);
    var staleHere := StaleIn(groups[g], before);
    LocalSize(mine, g);
    forall a | a in Local(mine) ensures a in staleHere {
      var k :| k in mine && a == Key(k.at, k.tag, 0);
      assert k in stale;
    }
    forall a, b | a in Local(mine) && b in staleHere && b !in Local(mine) ensures Below(a, b) {
      var k :| k in mine && a == Key(k.at, k.tag, 0);
      var j := Key(b.at, g, b.id);
      assert j in stale && j !in selected by {
        assert j in mine ==> b in Local(mine);
      }
      assert Below(k, j);
    }
    SubsetSmaller(Local(mine), staleHere);
    FirstNUnique(staleHere, |mine|, Local(mine));
  }

  lemma LocalMembers(selected: set<Key>, g: nat)
    ensures Members(Local(KeysOf(selected, g))) == MembersOf(selected, g)
    ensures g in AffectedGroups(selected) <==> KeysOf(selected, g) != {}
    ensures g in AffectedGroups(selected) <==> Local(KeysOf(selected, g)) != {}
  {
    var mine := KeysOf(selected, g);
    forall k | k in mine ensures Key(k.at, k.tag, 0) in Local(mine) {}
    forall w | w in MembersOf(selected, g) ensures w in Members(Local(mine)) {
      var j :| j in selected && j.id == g && j.tag == w;
      assert j in mine && Key(j.at, j.tag, 0) in Local(mine);
    }
    if g in AffectedGroups(selected) {
      var k :| k in selected && k.id == g;
      assert k in mine;
    }
  }

  lemma ReapGroupSelected(groups: map<nat, Group>, before: nat, max: nat, g: nat)
    requires g in groups && groups[g].generation < U64_MAX && groups[g].revision < U64_MAX
    requires g in AffectedGroups(FirstN(StaleKeys(groups, before), max))
    ensures
      var selected := FirstN(StaleKeys(groups, before), max);
      ReapGroup(groups[g], before, |KeysOf(selected, g)|) ==
        Ok((Without(groups[g], MembersOf(selected, g)), Local(KeysOf(selected, g))))
  {
    var selected := FirstN(StaleKeys(groups, before), max);
    SelectedAreFirst(groups, before, max, g);
    LocalMembers(selected, g);
  }

  // ---- Reap: sweeping group after group adds up to one requeue ----

  lemma RequeueAllUnion(tasks: map<nat, Task>, a: set<nat>, b: set<nat>)
    requires AllLeased(tasks, a) && AllLeased(tasks, b) && a !! b
    ensures AllLeased(tasks, a + b) && AllLeased(RequeueAll(tasks, a), b)
    ensures RequeueAll(RequeueAll(tasks, a), b) == RequeueAll(tasks, a + b)
    ensures CanRequeue(tasks, a + b) ==> CanRequeue(tasks, a) && CanRequeue(RequeueAll(tasks, a), b)
  {}

  function HeldIn(tasks: map<nat, Task>, group: nat, members: set<nat>): set<nat> {
    set t | t in tasks && tasks[t].state.Leased? && tasks[t].state.lease.group == group &&
            tasks[t].state.lease.owner in members
  }

  lemma HeldInSplit(tasks: map<nat, Task>, group: nat, removed: set<Key>, k: Key)
    requires k in removed
    ensures
      var first := HeldTasks(tasks, group, k.id);
      var all := HeldIn(tasks, group, Members(removed));
      && first <= all && HeldIn(RequeueAll(tasks, first), group, Members(removed - {k})) == all - first
  {}

  /** What a sweep did, given which Tasks it was to requeue. */
  predicate SweptUp(m: Machine, m': Machine, ids: set<nat>) {
    && AllLeased(m.state.tasks, ids) && SameButTasks(m, m')
    && m'.state.tasks == RequeueAll(m.state.tasks, ids) && m'.changes.tasks == m.changes.tasks + ids
  }

  lemma SweepsCompose(m: Machine, m1: Machine, m2: Machine, a: set<nat>, b: set<nat>)
    requires AllLeased(m.state.tasks, a + b) && a !! b
    requires SweptUp(m, m1, a) && SweptUp(m1, m2, b)
    ensures SweptUp(m, m2, a + b)
  {}

  lemma {:induction false} RequeueRemovedRefines(m: Machine, group: nat, removed: set<Key>)
    requires Coherent(m) && CanRequeue(m.state.tasks, HeldIn(m.state.tasks, group, Members(removed)))
    ensures
      var r := RequeueRemoved(m, group, removed);
      r.failed.None? && Coherent(r.m) && SweptUp(m, r.m, HeldIn(m.state.tasks, group, Members(removed)))
    decreases |removed|
  {
    var all := HeldIn(m.state.tasks, group, Members(removed));
    if removed == {} {
      assert all == {};
      assert RequeueAll(m.state.tasks, {}) == m.state.tasks;
    } else {
      var k := MinKey(removed);
      var first := HeldTasks(m.state.tasks, group, k.id);
      HeldInSplit(m.state.tasks, group, removed, k);
      RequeueAllUnion(m.state.tasks, first, all - first);
      assert first + (all - first) == all;
      RequeueMemberRefines(m, group, k.id);
      var m1 := RequeueMember(m, group, k.id).m;
      RequeueRemovedRefines(m1, group, removed - {k});
      SweepsCompose(m, m1, RequeueRemoved(m1, group, removed - {k}).m, first, all - first);
    }
  }

  function KeysIn(selected: set<Key>, groups: set<nat>): set<Key> {
    set k | k in selected && k.id in groups
  }

  function HeldAmong(tasks: map<nat, Task>, selected: set<Key>, groups: set<nat>): set<nat> {
    set t | t in tasks && tasks[t].state.Leased? && tasks[t].state.lease.group in groups &&
            tasks[t].state.lease.owner in MembersOf(selected, tasks[t].state.lease.group)
  }

  function ReapedGroups(groups: map<nat, Group>, selected: set<Key>, ids: set<nat>): map<nat, Group> {
    map g | g in groups :: if g in ids then Without(groups[g], MembersOf(selected, g)) else groups[g]
  }

  lemma KeysInSplit(selected: set<Key>, groups: set<nat>, g: nat)
    requires g in groups
    ensures |KeysIn(selected, groups)| == |KeysOf(selected, g)| + |KeysIn(selected, groups - {g})|
  {
    assert KeysIn(selected, groups) == KeysOf(selected, g) + KeysIn(selected, groups - {g});
    assert KeysOf(selected, g) !! KeysIn(selected, groups - {g});
  }

  lemma HeldAmongSplit(tasks: map<nat, Task>, selected: set<Key>, groups: set<nat>, g: nat)
    requires g in groups
    ensures
      var first := HeldIn(tasks, g, MembersOf(selected, g));
      var all := HeldAmong(tasks, selected, groups);
      && first <= all && HeldAmong(RequeueAll(tasks, first), selected, groups - {g}) == all - first
  {}

  /** The groups still to be reaped stand as they were when the members were selected. */
  predicate Untouched(m: Machine, groups: map<nat, Group>, ids: set<nat>) {
    forall g | g in ids :: g in groups && g in m.state.groups && m.state.groups[g] == groups[g]
  }

  /** `m` once group `g` lost its selected members, before their leases are requeued. */
  function Reduced(m: Machine, selected: set<Key>, g: nat): Machine
    requires g in m.state.groups
  {
    m.(state := m.state.(groups := m.state.groups[g := Without(m.state.groups[g], MembersOf(selected, g))]))
  }

  /** One group's turn: exactly its selected members go, and their leases are requeued. */
  lemma ReapOne(m: Machine, groups: map<nat, Group>, before: nat, max: nat, g: nat)
    requires Coherent(m) && Untouched(m, groups, {g}) && CanAdvance(groups, {g})
    requires g in AffectedGroups(FirstN(StaleKeys(groups, before), max))
    requires CanRequeue(m.state.tasks, HeldIn(m.state.tasks, g, MembersOf(FirstN(StaleKeys(groups, before), max), g)))
    ensures g in m.state.groups
    ensures
      var selected := FirstN(StaleKeys(groups, before), max);
      var turn := ReapTurn(m, selected, g, before);
      && turn.failed.None? && turn.removed != {} && |turn.removed| == |KeysOf(selected, g)| && Coherent(turn.m)
      && SweptUp(Reduced(m, selected, g), turn.m, HeldIn(m.state.tasks, g, MembersOf(selected, g)))
  {
    var selected := FirstN(StaleKeys(groups, before), max);
    assert g in groups;
    ReapGroupSelected(groups, before, max, g);
    LocalMembers(selected, g);
    LocalSize(KeysOf(selected, g), g);
    RegroupedAgrees(m, g, Without(groups[g], MembersOf(selected, g)));
    RequeueRemovedRefines(Reduced(m, selected, g), g, Local(KeysOf(selected, g)));
  }

  /** What reaping the groups in `ids` is to leave behind. */
  predicate ReapedUp(m: Machine, m': Machine, selected: set<Key>, ids: set<nat>) {
    var held := HeldAmong(m.state.tasks, selected, ids);
    && m'.state == m.state.(tasks := RequeueAll(m.state.tasks, held),
                              groups := ReapedGroups(m.state.groups, selected, ids))
    && m'.changes == m.changes.(tasks := m.changes.tasks + held)
  }

  lemma ReapsCompose(m: Machine, swept: Machine, m': Machine, selected: set<Key>, ids: set<nat>, g: nat)
    requires g in ids && g in m.state.groups
    requires SweptUp(Reduced(m, selected, g), swept, HeldIn(m.state.tasks, g, MembersOf(selected, g)))
    requires ReapedUp(swept, m', selected, ids - {g})
    ensures ReapedUp(m, m', selected, ids)
  {}

  lemma ReapGroupsStep(
    m: Machine, selected: set<Key>, ids: set<nat>, before: nat, count: nat, affected: set<nat>, turn: Turn)
    requires ids != {} && turn == ReapTurn(m, selected, MinId(ids), before) && turn.failed.None? && turn.removed != {}
    ensures ReapGroups(m, selected, ids, before, count, affected) ==
            ReapGroups(turn.m, selected, ids - {MinId(ids)}, before, count + |turn.removed|, affected + {MinId(ids)})
  {
    hide ReapTurn;
  }

  predicate Reapable(m: Machine, groups: map<nat, Group>, selected: set<Key>, ids: set<nat>) {
    && ids <= AffectedGroups(selected) && Untouched(m, groups, ids) && CanAdvance(groups, ids)
    && CanRequeue(m.state.tasks, HeldAmong(m.state.tasks, selected, ids))
  }

  lemma ReapableNext(m: Machine, groups: map<nat, Group>, selected: set<Key>, ids: set<nat>, g: nat, swept: Machine)
    requires g in ids && Reapable(m, groups, selected, ids)
    requires SweptUp(Reduced(m, selected, g), swept, HeldIn(m.state.tasks, g, MembersOf(selected, g)))
    ensures Reapable(swept, groups, selected, ids - {g})
  {}

  lemma ReapTurnRefines(m: Machine, groups: map<nat, Group>, before: nat, max: nat, ids: set<nat>)
    requires ids != {} && Coherent(m) && Reapable(m, groups, FirstN(StaleKeys(groups, before), max), ids)
    ensures
      var selected := FirstN(StaleKeys(groups, before), max);
      var g := MinId(ids);
      var turn := ReapTurn(m, selected, g, before);
      && g in m.state.groups && turn.failed.None? && turn.removed != {} && |turn.removed| == |KeysOf(selected, g)|
      && Coherent(turn.m) && Reapable(turn.m, groups, selected, ids - {g})
      && SweptUp(Reduced(m, selected, g), turn.m, HeldIn(m.state.tasks, g, MembersOf(selected, g)))
  {
    var selected, g := FirstN(StaleKeys(groups, before), max), MinId(ids);
    HeldAmongSplit(m.state.tasks, selected, ids, g);
    ReapOne(m, groups, before, max, g);
    ReapableNext(m, groups, selected, ids, g, ReapTurn(m, selected, g, before).m);
  }

  predicate ReapedRight(m: Machine, selected: set<Key>, ids: set<nat>, count: nat, affected: set<nat>, r: Reaped) {
    && r.failed.None? && ReapedUp(m, r.m, selected, ids)
    && r.count == count + |KeysIn(selected, ids)| && r.affected == affected + ids
  }

  lemma ReapedRightStep(m: Machine, selected: set<Key>, ids: set<nat>, g: nat, swept: Machine, n: nat, count: nat,
                        affected: set<nat>, r: Reaped)
    requires g in ids && g in m.state.groups && n == |KeysOf(selected, g)|
    requires SweptUp(Reduced(m, selected, g), swept, HeldIn(m.state.tasks, g, MembersOf(selected, g)))
    requires ReapedRight(swept, selected, ids - {g}, count + n, affected + {g}, r)
    ensures ReapedRight(m, selected, ids, count, affected, r)
  {
    ReapsCompose(m, swept, r.m, selected, ids, g);
    KeysInSplit(selected, ids, g);
    assert affected + {g} + (ids - {g}) == affected + ids;
  }

  lemma ReapNone(m: Machine, selected: set<Key>, before: nat, count: nat, affected: set<nat>)
    ensures ReapGroups(m, selected, {}, before, count, affected).m == m
    ensures ReapedRight(m, selected, {}, count, affected, ReapGroups(m, selected, {}, before, count, affected))
  {}

  lemma {:induction false} ReapGroupsRefine(m: Machine, groups: map<nat, Group>, before: nat, max: nat, ids: set<nat>,
                                            count: nat, affected: set<nat>)
    requires Coherent(m) && Reapable(m, groups, FirstN(StaleKeys(groups, before), max), ids)
    ensures
      var selected := FirstN(StaleKeys(groups, before), max);
      var r := ReapGroups(m, selected, ids, before, count, affected);
      Coherent(r.m) && ReapedRight(m, selected, ids, count, affected, r)
    decreases |ids|
  {
    hide *;
    var selected := FirstN(StaleKeys(groups, before), max);
    if ids == {} {
      ReapNone(m, selected, before, count, affected);
    } else {
      var g := MinId(ids);
      assert g in ids by {
        MinIdIn(ids);
      }
      var turn := ReapTurn(m, selected, g, before);
      ReapTurnRefines(m, groups, before, max, ids);
      ReapGroupsStep(m, selected, ids, before, count, affected, turn);
      var n := |turn.removed|;
      ReapGroupsRefine(turn.m, groups, before, max, ids - {g}, count + n, affected + {g});
      ReapedRightStep(m, selected, ids, g, turn.m, n, count, affected,
                      ReapGroups(turn.m, selected, ids - {g}, before, count + n, affected + {g}));
    }
  }

  // ---- Reap: the whole command ----

  lemma PreflightIsEnough(m: Machine, selected: set<Key>)
    requires HeldOk(m.state.tasks, m.held, {})
    ensures (forall k | k in selected :: Preflight(m, k.id, k.tag)) <==>
            CanRequeue(m.state.tasks, HeldByAny(m.state.tasks, selected))
  {}

  lemma AffectedIsAll(s: State, selected: set<Key>)
    ensures HeldAmong(s.tasks, selected, AffectedGroups(selected)) == HeldByAny(s.tasks, selected)
    ensures ReapedGroups(s.groups, selected, AffectedGroups(selected)) == ReapAll(s.groups, selected)
    ensures KeysIn(selected, AffectedGroups(selected)) == selected
  {}

  lemma ReapCommits(m: Machine, before: nat, max: nat, reaped: Reaped)
    requires m.changes == NoChanges && ReapAccepted(m.state, before, max)
    requires
      var selected := FirstN(StaleKeys(m.state.groups, before), max);
      ReapedRight(m, selected, AffectedGroups(selected), 0, {}, reaped)
    ensures
      var o := ReapStep(m.state, before, max);
      ReapFinish(m, reaped) == Ran(reaped.m.(state := o.state, changes := o.changes), o.reply)
      && o.state == reaped.m.state.(revision := m.state.revision + 1)
  {
    hide FirstN, StaleKeys, HeldAmong, HeldByAny, ReapedGroups, ReapAll, RequeueAll, KeysIn, CanRequeue, CanAdvance;
    var selected := FirstN(StaleKeys(m.state.groups, before), max);
    AffectedIsAll(m.state, selected);
    assert {} + AffectedGroups(selected) == AffectedGroups(selected);
  }

  /** Nothing stands in the way of the reap: some member is stale and every counter can advance. */
  predicate ReapAccepted(s: State, before: nat, max: nat) {
    var selected := FirstN(StaleKeys(s.groups, before), max);
    && max > 0 && selected != {} && s.revision < U64_MAX && CanAdvance(s.groups, AffectedGroups(selected))
    && CanRequeue(s.tasks, HeldByAny(s.tasks, selected))
  }

  lemma ReapRunIs(m: Machine, before: nat, max: nat)
    requires HeldOk(m.state.tasks, m.held, {}) && m.changes == NoChanges
    ensures
      var selected := FirstN(StaleKeys(m.state.groups, before), max);
      var o := ReapStep(m.state, before, max);
      ReapRun(m, before, max) ==
        if ReapAccepted(m.state, before, max) then
          ReapFinish(m, ReapGroups(m, selected, AffectedGroups(selected), before, 0, {}))
        else Ran(m.(state := o.state, changes := o.changes), o.reply)
    ensures !ReapAccepted(m.state, before, max) ==> ReapStep(m.state, before, max).state == m.state
  {
    PreflightIsEnough(m, FirstN(StaleKeys(m.state.groups, before), max));
    hide FirstN, StaleKeys, ReapGroups, ReapFinish, HeldOk, Preflight, CanRequeue, CanAdvance, HeldByAny, ReapAll,
      RequeueAll;
  }

  lemma ReapableAtFirst(m: Machine, before: nat, max: nat)
    requires ReapAccepted(m.state, before, max)
    ensures
      var selected := FirstN(StaleKeys(m.state.groups, before), max);
      Reapable(m, m.state.groups, selected, AffectedGroups(selected))
  {}

  /** Selecting globally and then reaping group by group, by count, is the simple form: it removes
      exactly the first stale members, and after the preflight nothing can fail. */
  lemma ReapRefines(m: Machine, before: nat, max: nat)
    requires Coherent(m) && m.changes == NoChanges
    ensures
      var r, o := ReapRun(m, before, max), ReapStep(m.state, before, max);
      && Coherent(r.m) && r.m.state == o.state && r.m.changes == o.changes && r.reply == o.reply
  {
    hide *;
    Parts(m);
    ReapRunIs(m, before, max);
    if ReapAccepted(m.state, before, max) {
      var selected := FirstN(StaleKeys(m.state.groups, before), max);
      var ids := AffectedGroups(selected);
      ReapableAtFirst(m, before, max);
      ReapGroupsRefine(m, m.state.groups, before, max, ids, 0, {});
      var reaped := ReapGroups(m, selected, ids, before, 0, {});
      ReapCommits(m, before, max, reaped);
      RestatedAgrees(reaped.m, m.state.revision + 1, ReapStep(m.state, before, max).changes);
    } else {
      RestatedAgrees(m, m.state.revision, ReapStep(m.state, before, max).changes);
    }
  }
}
