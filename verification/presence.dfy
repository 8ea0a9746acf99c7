/** Presence: what a heartbeat or a join records, and that no member is reaped that was heard of after
    the cutoff. */
module Presence {
  import opened Order
  import opened Groups
  import opened BrokerState
  import opened BrokerMachine
  import opened Coherence
  import opened Refinement
  import opened Progress
  import opened Runs
  import opened Membership
  import opened Fencing
  import opened Answers

  // ---- Heartbeat and join ----

  /** One group may differ, and the revision counts whether it does. */
  predicate OnlyGroup(s: State, s': State, g: nat) {
    && g in s.groups && g in s'.groups
    && s' == s.(groups := s.groups[g := s'.groups[g]],
                revision := s.revision + (if s'.groups[g] == s.groups[g] then 0 else 1))
  }

  /** A heartbeat is accepted exactly from a member that names the generation, while the counters last, and
      the answer is the record it leaves. */
  ghost predicate HeartbeatTaken(s: State, c: Command, s': State, reply: Result<Reply, Error>) {
    && c.Heartbeat?
    && (reply.Ok? <==>
          && s.revision < U64_MAX && c.group in s.groups && s.groups[c.group].generation == c.expectedGeneration
          && c.member in s.groups[c.group].consumers && Countable(s.groups[c.group], c.member, c.now))
    && (reply.Err? ==> s' == s)
    && (reply.Ok? ==>
          && OnlyGroup(s, s', c.group) && Heard(s.groups[c.group], s'.groups[c.group], c.member, c.now)
          && var r, g := reply.value, s'.groups[c.group];
             && r.HeartbeatReply? && Dated(r.meta, s') && r.group == c.group && r.member == c.member
             && r.generation == g.generation && r.memberRevision == g.consumers[c.member].revision)
  }

  lemma HeartbeatAnswers(m: Machine, c: Command)
    requires c.Heartbeat?
    ensures HeartbeatTaken(m.state, c, Exec(m, c).m.state, Exec(m, c).reply)
  {
    hide Exec, HeartbeatGroup;
    IndexFree(m, c);
    if c.group in m.state.groups {
      HeartbeatLaw(m.state.groups[c.group], c.member, c.expectedGeneration, c.now);
    }
  }

  /** By a join a member that repeats its capabilities is heard of, a new one is added while there is room,
      and the answer is the group it leaves. */
  ghost predicate JoinTaken(s: State, c: Command, s': State, reply: Result<Reply, Error>) {
    && c.JoinGroup?
    && (reply.Ok? <==>
          && s.revision < U64_MAX && c.group in s.groups
          && var g := s.groups[c.group];
             if c.member in g.consumers then
               g.consumers[c.member].capabilities == c.capabilities && Countable(g, c.member, c.now)
             else |g.consumers| < c.maxMembers && g.generation < U64_MAX && g.revision < U64_MAX)
    && (reply.Err? ==> s' == s)
    && (reply.Ok? ==>
          && OnlyGroup(s, s', c.group)
          && var a, b := s.groups[c.group], s'.groups[c.group];
             && (if c.member in a.consumers then Heard(a, b, c.member, c.now)
                 else Joined(a, b, c.member, c.capabilities, c.now))
             && DescribesGroup(reply.value, s', c.group))
  }

  lemma JoinAnswers(m: Machine, c: Command)
    requires c.JoinGroup?
    ensures JoinTaken(m.state, c, Exec(m, c).m.state, Exec(m, c).reply)
  {
    hide Exec, Groups.JoinGroup;
    IndexFree(m, c);
    if c.group in m.state.groups {
      JoinLaw(m.state.groups[c.group], c.member, c.capabilities, c.now, c.maxMembers);
    }
  }

  /** The answer is the record of the group. */
  predicate DescribesGroup(r: Reply, s: State, group: nat) {
    && r.GroupReply? && Dated(r.meta, s) && group in s.groups && r.group == group
    && r.generation == s.groups[group].generation && r.groupRevision == s.groups[group].revision
    && r.members == |s.groups[group].consumers|
  }

  // ---- Nobody is reaped who was heard of after the cutoff ----

  predicate Present(s: State, g: nat, w: nat, since: nat) {
    g in s.groups && w in s.groups[g].consumers && since <= s.groups[g].consumers[w].heartbeatAt
  }

  lemma ReapGroupSpares(g: Group, before: nat, max: nat, w: nat)
    requires w in g.consumers && before < g.consumers[w].heartbeatAt
    ensures
      var r := ReapGroup(g, before, max);
      r.Ok? ==> w in r.value.0.consumers && r.value.0.consumers[w] == g.consumers[w]
  {
    var stale := FirstN(StaleIn(g, before), max);
    hide FirstN;
    assert w !in Members(stale) by {
      forall k | k in stale ensures k.id != w {
        assert k in StaleIn(g, before);
      }
    }
  }

  lemma TurnSpares(m: Machine, selected: set<Key>, h: nat, before: nat, g: nat, w: nat)
    requires g in m.state.groups && w in m.state.groups[g].consumers
    requires before < m.state.groups[g].consumers[w].heartbeatAt
    ensures
      var groups := ReapTurn(m, selected, h, before).m.state.groups;
      g in groups && w in groups[g].consumers && groups[g].consumers[w] == m.state.groups[g].consumers[w]
  {
    hide ReapGroup, RequeueRemoved;
    if h in m.state.groups {
      var size := |KeysOf(selected, h)|;
      var r := ReapGroup(m.state.groups[h], before, size);
      if r.Ok? {
        RemovedOnly(m.(state := m.state.(groups := m.state.groups[h := r.value.0])), h, r.value.1);
      }
      if h == g {
        ReapGroupSpares(m.state.groups[g], before, size, w);
      }
    }
  }

  lemma {:induction false} ReapGroupsSpares(
    m: Machine, selected: set<Key>, ids: set<nat>, before: nat, count: nat, affected: set<nat>, g: nat, w: nat)
    requires g in m.state.groups && w in m.state.groups[g].consumers
    requires before < m.state.groups[g].consumers[w].heartbeatAt
    ensures
      var groups := ReapGroups(m, selected, ids, before, count, affected).m.state.groups;
      g in groups && w in groups[g].consumers && groups[g].consumers[w] == m.state.groups[g].consumers[w]
    decreases |ids|
  {
    hide ReapTurn;
    if ids != {} {
      var h := MinId(ids);
      MinIdIn(ids);
      TurnSpares(m, selected, h, before, g, w);
      var turn := ReapTurn(m, selected, h, before);
      ReapGroupsSpares(turn.m, selected, ids - {h}, before, count + |turn.removed|,
                       if turn.removed == {} then affected else affected + {h}, g, w);
    }
  }

  /** A reap, of any machine, leaves every member as it is that was heard of after the cutoff. */
  lemma ReapSpares(m: Machine, c: Command, g: nat, w: nat)
    requires c.ReapStaleMembers? && g in m.state.groups && w in m.state.groups[g].consumers
    requires c.staleBefore < m.state.groups[g].consumers[w].heartbeatAt
    ensures
      var groups := Exec(m, c).m.state.groups;
      g in groups && w in groups[g].consumers && groups[g].consumers[w] == m.state.groups[g].consumers[w]
  {
    hide ReapGroups, FirstN, StaleKeys, Preflight, CanAdvance, AffectedGroups;
    var selected := FirstN(StaleKeys(m.state.groups, c.staleBefore), c.maxReaped);
    ReapGroupsSpares(m.(changes := NoChanges), selected, AffectedGroups(selected), c.staleBefore, 0, {}, g, w);
  }

  lemma LeaveSpares(m: Machine, c: Command, g: nat, w: nat)
    requires c.LeaveGroup? && !(c.group == g && c.member == w)
    requires g in m.state.groups && w in m.state.groups[g].consumers
    ensures
      var groups := LeaveRun(m, c).m.state.groups;
      g in groups && w in groups[g].consumers && groups[g].consumers[w] == m.state.groups[g].consumers[w]
  {
    hide RequeueHeld, Preflight;
    if c.group in m.state.groups {
      var left := Groups.LeaveGroup(m.state.groups[c.group], c.member, c.expectedGeneration);
      if left.Ok? {
        var key := (c.group, c.member);
        var gone := m.(state := m.state.(groups := m.state.groups[c.group := left.value]));
        HeldOnly(gone.(held := gone.held - {key}), c.group, c.member, LeasesOf(gone.held, key));
      }
    }
  }

  /** The command is neither a departure of the member nor a reap that reaches `since`. */
  predicate Harmless(c: Command, g: nat, w: nat, since: nat) {
    && (c.ReapStaleMembers? ==> c.staleBefore < since)
    && (c.LeaveGroup? ==> !(c.group == g && c.member == w))
  }

  lemma ExecKeepsPresent(m: Machine, c: Command, g: nat, w: nat, since: nat)
    requires Present(m.state, g, w, since) && Harmless(c, g, w, since)
    ensures Present(Exec(m, c).m.state, g, w, since)
  {
    hide ClaimRun, LeaveRun, ReapRun, PruneRun, PublishRun, EnsureGroupRun, RenewRun, CompleteRun, JoinStep,
      HeartbeatStep, EnsureNamespaceStep, AdvanceTermStep;
    var m' := m.(changes := NoChanges);
    match c
    case ClaimTask(_, _, _, _, _, _, _) => ClaimRunKeepsGroups(m', c);
    case LeaveGroup(_, _, _) => LeaveSpares(m', c, g, w);
    case ReapStaleMembers(before, max) => ReapSpares(m, c, g, w);
    case PruneCompleted(cutoff, max) => PruneRunKeepsGroups(m', cutoff, max);
    case PublishTask(_, _, _, _, _) => PublishAdds(m', c);
    case RenewLease(_, _, _, _, _, _, _, _, _) => RenewRunKeepsGroups(m', c);
    case CompleteTask(_, _, _, _, _, _, _, _, _) => CompleteRunKeepsGroups(m', c);
    case EnsureGroup(_, _, _) => EnsureGroupAdds(m', c);
    case JoinGroup(_, _, _, _, _) => JoinKeepsPresent(m, c, g, w, since);
    case Heartbeat(_, _, _, _) => HeartbeatKeepsPresent(m, c, g, w, since);
    case EnsureNamespace(_, _) => ExecGroupsSame(m, c);
    case AdvanceTerm(_, _) => ExecGroupsSame(m, c);
  }

  lemma JoinKeepsPresent(m: Machine, c: Command, g: nat, w: nat, since: nat)
    requires c.JoinGroup? && Present(m.state, g, w, since)
    ensures Present(Exec(m, c).m.state, g, w, since)
  {
    hide Exec;
    JoinAnswers(m, c);
  }

  lemma HeartbeatKeepsPresent(m: Machine, c: Command, g: nat, w: nat, since: nat)
    requires c.Heartbeat? && Present(m.state, g, w, since)
    ensures Present(Exec(m, c).m.state, g, w, since)
  {
    hide Exec;
    HeartbeatAnswers(m, c);
  }

  lemma ExecGroupsSame(m: Machine, c: Command)
    requires c.EnsureNamespace? || c.AdvanceTerm?
    ensures Exec(m, c).m.state.groups == m.state.groups
  {
    hide Exec;
    IndexFree(m, c);
  }

  lemma {:induction false} RunKeepsPresent(m: Machine, log: seq<Command>, g: nat, w: nat, since: nat)
    requires Present(m.state, g, w, since) && forall c :: c in log ==> Harmless(c, g, w, since)
    ensures Present(After(m, log).state, g, w, since)
    decreases |log|
  {
    hide Exec, Present, Harmless;
    if log != [] {
      assert log[0] in log;
      ExecKeepsPresent(m, log[0], g, w, since);
      RunKeepsPresent(Exec(m, log[0]).m, log[1..], g, w, since);
    }
  }

  /** Over every run of any machine: a member whose heartbeat or join was accepted is still a member, and
      was heard of no earlier, as long as it does not leave and no reap reaches that time. */
  lemma HeardIsKept(m: Machine, c: Command, log: seq<Command>)
    requires (c.Heartbeat? || c.JoinGroup?) && Exec(m, c).reply.Ok?
    requires forall d :: d in log ==> Harmless(d, c.group, c.member, c.now)
    ensures Present(After(Exec(m, c).m, log).state, c.group, c.member, c.now)
  {
    hide Exec, After, Harmless;
    if c.Heartbeat? {
      HeartbeatAnswers(m, c);
    } else {
      JoinAnswers(m, c);
    }
    RunKeepsPresent(Exec(m, c).m, log, c.group, c.member, c.now);
  }

  // ---- Leave and reap ----

  /** The member is one no longer. */
  predicate Left(s: State, s': State, g: nat, w: nat) {
    g in s.groups && w in s.groups[g].consumers && !(g in s'.groups && w in s'.groups[g].consumers)
  }

  /** The group as it was but for the members that left; if any did, that is one change of membership. */
  ghost predicate Fewer(a: Group, b: Group) {
    && b.ns == a.ns
    && (forall w :: w in b.consumers ==> w in a.consumers && b.consumers[w] == a.consumers[w])
    && if b.consumers.Keys == a.consumers.Keys then b == a
       else b.generation == a.generation + 1 && b.revision == a.revision + 1
  }

  /** Members left and nothing else happened, except that their leases went back to the queue. */
  ghost predicate Departed(s: State, s': State) {
    && s' == s.(groups := s'.groups, tasks := s'.tasks, revision := s.revision + 1)
    && s'.groups.Keys == s.groups.Keys && s'.tasks.Keys == s.tasks.Keys
    && (forall g :: g in s.groups ==> Fewer(s.groups[g], s'.groups[g]))
    && forall t :: t in s.tasks ==>
         if s.tasks[t].state.Leased? && Left(s, s', s.tasks[t].state.lease.group, s.tasks[t].state.lease.owner)
         then PutBack(s.tasks[t], s'.tasks[t])
         else s'.tasks[t] == s.tasks[t]
  }

  ghost predicate LeavesOne(s: State, s': State, group: nat, member: nat) {
    Departed(s, s') && forall g, w :: Left(s, s', g, w) <==> g == group && w == member
  }

  /** A departure is accepted exactly from a member that names the generation, while the counters last; the
      member goes, and with it all its leases. */
  ghost predicate LeaveTaken(s: State, c: Command, s': State, reply: Result<Reply, Error>) {
    && c.LeaveGroup?
    && (reply.Ok? <==>
          && s.revision < U64_MAX && c.group in s.groups && c.member in s.groups[c.group].consumers
          && s.groups[c.group].generation == c.expectedGeneration < U64_MAX && s.groups[c.group].revision < U64_MAX
          && forall t :: t in s.tasks && HeldBy(s.tasks[t], c.group, c.member) ==> s.tasks[t].revision < U64_MAX)
    && (reply.Err? ==> s' == s)
    && (reply.Ok? ==> LeavesOne(s, s', c.group, c.member) && DescribesGroup(reply.value, s', c.group))
  }

  lemma LeaveStepAnswers(s: State, c: Command)
    requires c.LeaveGroup?
    ensures LeaveTaken(s, c, Step(s, c).state, Step(s, c).reply)
  {
    hide JoinStep, HeartbeatStep, PublishSpec, EnsureGroupSpec, ClaimStep, RenewStep, CompleteStep, PruneStep, ReapStep;
    var held := HeldTasks(s.tasks, c.group, c.member);
    assert CanRequeue(s.tasks, held) <==>
           forall t :: t in s.tasks && HeldBy(s.tasks[t], c.group, c.member) ==> s.tasks[t].revision < U64_MAX by {
      forall t | t in s.tasks && HeldBy(s.tasks[t], c.group, c.member) ensures t in held {}
    }
  }

  /** So it is of a Broker whose indexes agree. */
  lemma LeaveAnswers(m: Machine, c: Command)
    requires Coherent(m) && c.LeaveGroup?
    ensures LeaveTaken(m.state, c, Exec(m, c).m.state, Exec(m, c).reply)
  {
    hide Exec, Step, Coherent, LeaveTaken;
    ExecRefines(m, c);
    LeaveStepAnswers(m.state, c);
  }

  /** The members that left, each under the heartbeat it was last heard with. */
  function LeftKeys(s: State, s': State): set<Key> {
    set g, w | g in s.groups && w in s.groups[g].consumers && Left(s, s', g, w)
      :: Key(s.groups[g].consumers[w].heartbeatAt, g, w)
  }

  function LostGroups(s: State, s': State): set<nat> {
    set g | g in s.groups && g in s'.groups && s'.groups[g].consumers.Keys != s.groups[g].consumers.Keys
  }

  predicate Stale(s: State, g: nat, w: nat, before: nat) {
    g in s.groups && w in s.groups[g].consumers && s.groups[g].consumers[w].heartbeatAt <= before
  }

  /** No counter that a reap may have to advance is at its limit. */
  predicate Spare(s: State) {
    && s.revision < U64_MAX
    && (forall g :: g in s.groups ==> s.groups[g].generation < U64_MAX && s.groups[g].revision < U64_MAX)
    && forall t :: t in s.tasks && s.tasks[t].state.Leased? ==> s.tasks[t].revision < U64_MAX
  }

  /** The stale members that were heard of longest ago have left, at most `max`, and all if there is room;
      `reaped` counts them and `affected` their groups. */
  ghost predicate ReapsOldest(s: State, s': State, before: nat, max: nat, reaped: nat, affected: nat) {
    && (if LeftKeys(s, s') == {} then s' == s else Departed(s, s'))
    && reaped == |LeftKeys(s, s')| <= max && affected == |LostGroups(s, s')|
    && (forall g, w :: Left(s, s', g, w) ==> Stale(s, g, w, before))
    && (reaped < max ==> forall g, w :: !Stale(s', g, w, before))
    && forall g, w, h, v :: Left(s, s', g, w) && Stale(s', h, v, before) ==>
         Below(Key(s.groups[g].consumers[w].heartbeatAt, g, w), Key(s'.groups[h].consumers[v].heartbeatAt, h, v))
  }

  function KeyOf(s: State, g: nat, w: nat): Key {
    Key(if g in s.groups && w in s.groups[g].consumers then s.groups[g].consumers[w].heartbeatAt else 0, g, w)
  }

  /** The keys name members, and these are the ones gone from the groups. */
  ghost predicate Removes(s: State, s': State, selected: set<Key>) {
    && (forall k :: k in selected ==>
          k.id in s.groups && k.tag in s.groups[k.id].consumers && k.at == s.groups[k.id].consumers[k.tag].heartbeatAt)
    && s'.groups == ReapAll(s.groups, selected)
  }

  lemma SelectedIsOf(s: State, selected: set<Key>, s': State, g: nat, w: nat)
    requires Removes(s, s', selected)
    ensures w in MembersOf(selected, g) <==> KeyOf(s, g, w) in selected
    ensures w in MembersOf(selected, g) ==> g in AffectedGroups(selected)
  {
    if w in MembersOf(selected, g) {
      var k :| k in selected && k.id == g && k.tag == w;
      assert k == KeyOf(s, g, w);
    }
  }

  lemma RemovedLeft(s: State, s': State, selected: set<Key>, g: nat, w: nat)
    requires Removes(s, s', selected)
    ensures Left(s, s', g, w) <==> KeyOf(s, g, w) in selected
  {
    SelectedIsOf(s, selected, s', g, w);
    hide MembersOf, AffectedGroups;
    if KeyOf(s, g, w) in selected {
      assert g in s.groups && w in s.groups[g].consumers;
    }
  }

  lemma RemovedKeys(s: State, s': State, selected: set<Key>)
    requires Removes(s, s', selected)
    ensures LeftKeys(s, s') == selected
  {
    hide Left, ReapAll;
    forall g, w ensures Left(s, s', g, w) <==> KeyOf(s, g, w) in selected {
      RemovedLeft(s, s', selected, g, w);
    }
    forall k | k in selected ensures k in LeftKeys(s, s') {
      assert k == KeyOf(s, k.id, k.tag) && Left(s, s', k.id, k.tag);
    }
  }

  lemma RemovedFewer(s: State, s': State, selected: set<Key>, g: nat)
    requires Removes(s, s', selected) && g in s.groups
    ensures g in s'.groups && Fewer(s.groups[g], s'.groups[g])
    ensures g in AffectedGroups(selected) <==> s'.groups[g].consumers.Keys != s.groups[g].consumers.Keys
  {
    if g in AffectedGroups(selected) {
      var k :| k in selected && k.id == g;
      assert k.tag in MembersOf(selected, g) && k.tag in s.groups[g].consumers.Keys;
      assert k.tag !in s'.groups[g].consumers;
    }
  }

  lemma RemovedGroups(s: State, s': State, selected: set<Key>)
    requires Removes(s, s', selected)
    ensures LostGroups(s, s') == AffectedGroups(selected)
  {
    hide ReapAll, Fewer;
    assert s'.groups.Keys == s.groups.Keys by { RemovedDomain(s, s', selected); }
    forall g | g in s.groups ensures g in LostGroups(s, s') <==> g in AffectedGroups(selected) {
      RemovedFewer(s, s', selected, g);
    }
  }

  lemma RemovedDomain(s: State, s': State, selected: set<Key>)
    requires Removes(s, s', selected)
    ensures s'.groups.Keys == s.groups.Keys
  {}

  lemma RemovedDeparted(s: State, s': State, selected: set<Key>)
    requires Removes(s, s', selected)
    requires s' == s.(groups := s'.groups, tasks := RequeueAll(s.tasks, HeldByAny(s.tasks, selected)),
                      revision := s.revision + 1)
    ensures Departed(s, s')
  {
    hide ReapAll, Fewer, Left, AffectedGroups, MembersOf;
    RemovedDomain(s, s', selected);
    forall g | g in s.groups ensures Fewer(s.groups[g], s'.groups[g]) {
      RemovedFewer(s, s', selected, g);
    }
    forall t | t in s.tasks && s.tasks[t].state.Leased?
      ensures t in HeldByAny(s.tasks, selected) <==>
                Left(s, s', s.tasks[t].state.lease.group, s.tasks[t].state.lease.owner)
    {
      var l := s.tasks[t].state.lease;
      SelectedIsOf(s, selected, s', l.group, l.owner);
      RemovedLeft(s, s', selected, l.group, l.owner);
    }
  }

  lemma ReapRemoves(s: State, before: nat, max: nat)
    requires ReapStep(s, before, max).reply.Ok?
    ensures Removes(s, ReapStep(s, before, max).state, FirstN(StaleKeys(s.groups, before), max))
    ensures
      var o, selected := ReapStep(s, before, max), FirstN(StaleKeys(s.groups, before), max);
      && o.reply == Ok(ReapedReply(MetaOf(o.state), |selected|, |AffectedGroups(selected)|))
      && if selected == {} then o.state == s
         else o.state == s.(groups := o.state.groups, tasks := RequeueAll(s.tasks, HeldByAny(s.tasks, selected)),
                            revision := s.revision + 1)
  {
    var selected := FirstN(StaleKeys(s.groups, before), max);
    hide FirstN, MembersOf, Without;
    assert forall k :: k in selected ==> k in StaleKeys(s.groups, before);
    if selected == {} {
      assert AffectedGroups(selected) == {};
      assert ReapAll(s.groups, selected) == s.groups;
    }
  }

  /** Who left was stale, who is stale still comes after, and nobody is if there was room for all. */
  lemma OldestFirst(s: State, s': State, before: nat, max: nat, selected: set<Key>)
    requires selected == FirstN(StaleKeys(s.groups, before), max) && Removes(s, s', selected)
    ensures forall g, w :: Left(s, s', g, w) ==> Stale(s, g, w, before)
    ensures |selected| < max ==> forall g, w :: !Stale(s', g, w, before)
    ensures forall g, w, h, v :: Left(s, s', g, w) && Stale(s', h, v, before) ==>
              Below(Key(s.groups[g].consumers[w].heartbeatAt, g, w), Key(s'.groups[h].consumers[v].heartbeatAt, h, v))
  {
    var stale := StaleKeys(s.groups, before);
    if |selected| < max {
      AllSelected(stale, max);
    }
    hide FirstN, ReapAll;
    forall g, w ensures Left(s, s', g, w) <==> KeyOf(s, g, w) in selected {
      RemovedLeft(s, s', selected, g, w);
    }
    forall h, v | Stale(s', h, v, before)
      ensures KeyOf(s, h, v) in stale && KeyOf(s, h, v) !in selected && KeyOf(s, h, v) == KeyOf(s', h, v)
    {
      RemovedDomain(s, s', selected);
      RemovedFewer(s, s', selected, h);
      assert !Left(s, s', h, v);
    }
    forall g, w, h, v | Left(s, s', g, w) && Stale(s', h, v, before)
      ensures Below(Key(s.groups[g].consumers[w].heartbeatAt, g, w), Key(s'.groups[h].consumers[v].heartbeatAt, h, v))
    {
      assert Below(KeyOf(s, g, w), KeyOf(s, h, v));
    }
  }

  lemma AllSelected(keys: set<Key>, max: nat)
    requires |FirstN(keys, max)| < max
    ensures FirstN(keys, max) == keys
  {
    var r := FirstN(keys, max);
    hide FirstN;
    assert |keys - r| == 0;
  }

  lemma ReapStepAnswers(s: State, before: nat, max: nat)
    requires ReapStep(s, before, max).reply.Ok?
    ensures
      var o := ReapStep(s, before, max);
      && o.reply.value.ReapedReply? && Dated(o.reply.value.meta, o.state)
      && ReapsOldest(s, o.state, before, max, o.reply.value.reaped, o.reply.value.affectedGroups)
  {
    hide ReapStep, FirstN, StaleKeys, Departed, HeldByAny, RequeueAll, Left, Stale, Removes, LeftKeys, LostGroups;
    var s', selected := ReapStep(s, before, max).state, FirstN(StaleKeys(s.groups, before), max);
    ReapRemoves(s, before, max);
    RemovedKeys(s, s', selected);
    RemovedGroups(s, s', selected);
    OldestFirst(s, s', before, max, selected);
    if selected != {} {
      RemovedDeparted(s, s', selected);
    }
  }

  lemma ReapAccepted(s: State, before: nat, max: nat)
    requires max > 0 && Spare(s)
    ensures ReapStep(s, before, max).reply.Ok?
  {
    hide FirstN, StaleKeys;
  }

  lemma ReapRefused(s: State, before: nat, max: nat)
    ensures max == 0 ==> ReapStep(s, before, max).reply == Err(InvalidCapacity(ReapCapacity))
    ensures ReapStep(s, before, max).reply.Err? ==> ReapStep(s, before, max).state == s
  {
    hide FirstN, StaleKeys, HeldByAny;
  }

  /** With counters to spare, a reap is refused only if it may remove nobody; the members it removes are the
      stale ones heard of longest ago, all of them if there is room. */
  ghost predicate ReapTaken(s: State, c: Command, s': State, reply: Result<Reply, Error>) {
    && c.ReapStaleMembers?
    && (c.maxReaped == 0 ==> reply == Err(InvalidCapacity(ReapCapacity)))
    && (c.maxReaped > 0 && Spare(s) ==> reply.Ok?)
    && (reply.Err? ==> s' == s)
    && (reply.Ok? ==>
          && reply.value.ReapedReply? && Dated(reply.value.meta, s')
          && ReapsOldest(s, s', c.staleBefore, c.maxReaped, reply.value.reaped, reply.value.affectedGroups))
  }

  lemma ReapAnswers(m: Machine, c: Command)
    requires Coherent(m) && c.ReapStaleMembers?
    ensures ReapTaken(m.state, c, Exec(m, c).m.state, Exec(m, c).reply)
  {
    hide Exec, Coherent, ReapsOldest, ReapStep, Spare;
    ExecRefines(m, c);
    ReapRefused(m.state, c.staleBefore, c.maxReaped);
    if c.maxReaped > 0 && Spare(m.state) {
      ReapAccepted(m.state, c.staleBefore, c.maxReaped);
    }
    if ReapStep(m.state, c.staleBefore, c.maxReaped).reply.Ok? {
      ReapStepAnswers(m.state, c.staleBefore, c.maxReaped);
    }
  }
}
