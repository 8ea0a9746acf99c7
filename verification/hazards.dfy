/** A foreign expiration entry is never harmless: whoever claims in its namespace once the deadline has
    passed makes a replica that has the entry and one that was rebuilt without it part ways. */
module Hazards {
  import opened Order
  import opened Tasks
  import opened BrokerState
  import opened BrokerMachine
  import opened Coherence
  import opened ClaimRefinement
  import opened Refinement
  import opened Soundness
  import opened Checkpoints
  import opened Rebuilding
  import opened Entries
  import opened Atomicity
  import opened Replicas
  import opened Runs

  /** Every Task can still be requeued. */
  predicate Room(tasks: map<nat, Task>) {
    forall t | t in tasks :: tasks[t].revision < U64_MAX
  }

  /** Everything that is due in `ns` can still be requeued, whatever namespace it is in. */
  predicate Unstuck(m: Machine, ns: nat, now: nat) {
    CanRequeue(m.state.tasks, Due(HeapAt(m.expirations, ns), m.state.tasks, now))
  }

  lemma RoomIsUnstuck(m: Machine, ns: nat, now: nat)
    requires Room(m.state.tasks)
    ensures Unstuck(m, ns, now)
  {}

  /** An entry of namespace `ns` names the live lease of a Task of another namespace. */
  predicate Misplaced(m: Machine, ns: nat, k: Key) {
    k in HeapAt(m.expirations, ns) && Matches(m.state.tasks, k) && m.state.tasks[k.id].ns != ns
  }

  /** An admitted claim in `ns`, under a lease id that is not in use, once the entry is due. */
  predicate Claimant(m: Machine, c: Command, ns: nat, k: Key) {
    FreshClaim(m.state, c) && ClaimNamespace(m.state, c) == ns && c.lease !in m.active && k.at <= c.now
  }

  // ---- With the entry, the claim takes the lease away ----

  lemma {:induction false} NeverFails(m: Machine, ns: nat, ids: set<nat>, now: nat, count: nat)
    requires CanRequeue(m.state.tasks, ids)
    ensures RequeueExpired(m, ns, ids, now, count).failed.None?
    decreases |ids|
  {
    if ids != {} {
      var u := MinId(ids);
      MinIdIn(ids);
      if u in m.state.tasks && RequeueIfExpired(m.state.tasks[u], now).value.1 {
        NeverFails(RequeueOne(m, u, ns), ns, ids - {u}, now, count + 1);
      } else {
        NeverFails(m, ns, ids - {u}, now, count);
      }
    }
  }

  lemma {:induction false} RequeueReaches(m: Machine, ns: nat, ids: set<nat>, now: nat, count: nat, t: nat)
    requires CanRequeue(m.state.tasks, ids) && t in ids && t in m.state.tasks
    requires m.state.tasks[t].state.Leased? && m.state.tasks[t].state.lease.expiresAt <= now
    ensures
      var r := RequeueExpired(m, ns, ids, now, count);
      t in r.m.state.tasks && r.m.state.tasks[t] == Requeued(m.state.tasks[t])
    decreases |ids|
  {
    var u := MinId(ids);
    MinIdIn(ids);
    if u == t {
      RequeueExpiredOnlyAdds(RequeueOne(m, u, ns), ns, ids - {u}, now, count + 1, t);
    } else if u in m.state.tasks && RequeueIfExpired(m.state.tasks[u], now).value.1 {
      RequeueReaches(RequeueOne(m, u, ns), ns, ids - {u}, now, count + 1, t);
    } else {
      RequeueReaches(m, ns, ids - {u}, now, count, t);
    }
  }

  /** Recovery in `ns` requeues the Task of the other namespace. */
  lemma RecoveryTakes(m: Machine, ns: nat, now: nat, k: Key)
    requires Misplaced(m, ns, k) && k.at <= now && Unstuck(m, ns, now)
    ensures
      var r := RecoverExpired(m, ns, now);
      r.failed.None? && k.id in r.m.state.tasks && r.m.state.tasks[k.id] == Requeued(m.state.tasks[k.id])
  {
    var h := m.expirations[ns];
    var drained := m.(expirations := m.expirations[ns := Drain(h, now)]);
    var due := Due(h, m.state.tasks, now);
    assert k.id in due;
    NeverFails(drained, ns, due, now, 0);
    RequeueReaches(drained, ns, due, now, 0, k.id);
  }

  predicate Above(s: State, t: nat, floor: nat) {
    t in s.tasks && s.tasks[t].revision > floor
  }

  lemma LendRaises(m: Machine, c: Command, ns: nat, u: nat, t: nat, floor: nat)
    requires c.ClaimTask? && Above(m.state, t, floor)
    ensures Above(GrantLease(m, c, ns, u).m.state, t, floor)
  {
    hide Push, AddHeld, ClaimReplyOf;
  }

  /** Whatever the claim does after recovery, the Task's revision has risen. */
  lemma FreshRaises(m: Machine, c: Command, ns: nat, rec: Swept, t: nat, floor: nat)
    requires c.ClaimTask? && rec == RecoverExpired(m, ns, c.now) && rec.failed.None? && Above(rec.m.state, t, floor)
    ensures Above(ClaimFresh(m, c, ns).m.state, t, floor)
  {
    var (heap, popped) := PopReady(HeapAt(rec.m.ready, ns), rec.m.state.tasks);
    var m' := if ns in rec.m.ready then rec.m.(ready := rec.m.ready[ns := heap]) else rec.m;
    hide RecoverExpired, PopReady, GrantLease, HeapAt;
    if popped.Some? {
      LendRaises(m', c, ns, popped.value, t, floor);
    }
  }

  lemma ClaimTakes(m: Machine, c: Command, ns: nat, k: Key)
    requires Misplaced(m, ns, k) && Claimant(m, c, ns, k) && Unstuck(m, ns, c.now)
    ensures
      var s' := Exec(m, c).m.state;
      k.id in s'.tasks && s'.tasks[k.id].revision > m.state.tasks[k.id].revision
  {
    var m' := m.(changes := NoChanges);
    RecoveryTakes(m', ns, c.now, k);
    FreshRaises(m', c, ns, RecoverExpired(m', ns, c.now), k.id, m.state.tasks[k.id].revision);
    hide RecoverExpired, ClaimFresh, LeaseHolders;
    assert Exec(m, c) == ClaimFresh(m', c, ns);
  }

  // ---- Without it, the claim leaves the Task alone ----

  lemma ClaimSpares(m: Machine, c: Command, t: nat)
    requires Coherent(m) && FreshClaim(m.state, c) && t in m.state.tasks
    requires m.state.tasks[t].ns != ClaimNamespace(m.state, c)
    ensures
      var s' := Exec(m, c).m.state;
      t in s'.tasks && s'.tasks[t] == m.state.tasks[t]
  {
    var m', ns := m.(changes := NoChanges), ClaimNamespace(m.state, c);
    RestatedAgrees(m, m.state.revision, NoChanges);
    ExecRefines(m, c);
    if ClaimOverflows(m.state, c) {
      OverflowState(m', c);
      DueIsExpired(m', ns, c.now);
      if ns in m'.expirations {
        RequeueExpiredOnlyAdds(Drained(m', ns, c.now), ns, ExpiredTasks(m.state.tasks, ns, c.now), c.now, 0, t);
      }
    } else {
      StepSpares(m.state, c, t);
    }
    hide Coherent, Exec, Step, ClaimOverflows, RequeueExpired;
  }

  lemma StepSpares(s: State, c: Command, t: nat)
    requires FreshClaim(s, c) && t in s.tasks && s.tasks[t].ns != ClaimNamespace(s, c)
    ensures t in Step(s, c).state.tasks && Step(s, c).state.tasks[t] == s.tasks[t]
  {
    if Grants(s, c) {
      ClaimStepGrants(s, c);
    }
  }

  /** Same state, one with the misplaced entry and one coherent: the claim tells them apart. */
  lemma ClaimTellsApart(a: Machine, b: Machine, c: Command, ns: nat, k: Key)
    requires Misplaced(a, ns, k) && Claimant(a, c, ns, k) && Unstuck(a, ns, c.now)
    requires Coherent(b) && b.state == a.state
    ensures Exec(a, c).m.state != Exec(b, c).m.state
  {
    ClaimTakes(a, c, ns, k);
    ClaimSpares(b, c, k.id);
    hide Coherent, Exec;
  }

  // ---- A foreign hazard leaves a misplaced entry ----

  /** The entry that the command adds for a lease in namespace `home`. */
  predicate Adds(s: State, c: Command, home: nat, k: Key) {
    || (Grants(s, c) && home == ClaimNamespace(s, c) && k == GrantKey(s, c))
    || (Renews(s, c) && home == s.tasks[c.task].ns && k == RenewKey(s, c))
  }

  lemma AddedIsLive(s: State, c: Command, home: nat, k: Key)
    requires Adds(s, c, home, k)
    ensures Matches(Step(s, c).state.tasks, k) && Step(s, c).state.tasks[k.id].ns == home
  {
    if Renews(s, c) {
      RenewStepIs(s, c);
      hide RenewStep;
    } else {
      ClaimStepGrants(s, c);
      GrantKeyIs(s, c);
      GrantIsInNamespace(s, c);
    }
  }

  lemma EntryStays(expirations: map<nat, multiset<Key>>, s: State, c: Command, home: nat, k: Key, ns: nat)
    requires Adds(s, c, home, k) && ns != home && k in HeapAt(expirations, ns)
    ensures k in HeapAt(NextEntries(expirations, s, c), ns)
  {
    hide Push, DrainAt, Drain, RenewStep, Admit, LeaseHolders, ClaimOverflows, GrantKey, RenewKey;
    if Renews(s, c) {
      PushHas(expirations, home, k, ns, k);
    } else {
      DrainAtHas(expirations, home, c.now, ns, k);
      PushHas(DrainAt(expirations, home, c.now), home, k, ns, k);
    }
  }

  lemma HazardMisplaces(m: Machine, c: Command, home: nat, k: Key, ns: nat)
    requires Coherent(m) && !ClaimOverflows(m.state, c)
    requires Adds(m.state, c, home, k) && ns != home && k in HeapAt(m.expirations, ns)
    ensures Misplaced(Exec(m, c).m, ns, k)
  {
    hide Coherent, ClaimOverflows, Exec, Step, Adds, NextEntries, HeapAt, Matches;
    ExecRefines(m, c);
    ExecEntries(m, c);
    AddedIsLive(m.state, c, home, k);
    EntryStays(m.expirations, m.state, c, home, k, ns);
  }

  lemma ForeignIs(m: Machine, c: Command)
    requires Hazard(m, c) && !ClaimOverflows(m.state, c)
    ensures exists home: nat, k: Key, ns: nat ::
              Adds(m.state, c, home, k) && ns != home && k in HeapAt(m.expirations, ns)
  {
    hide ClaimOverflows, GrantKey, RenewStep, Admit, LeaseHolders;
    if Grants(m.state, c) && Foreign(m.expirations, ClaimNamespace(m.state, c), GrantKey(m.state, c)) {
      var ns: nat :| ns != ClaimNamespace(m.state, c) && GrantKey(m.state, c) in HeapAt(m.expirations, ns);
      assert Adds(m.state, c, ClaimNamespace(m.state, c), GrantKey(m.state, c));
    } else {
      assert Renews(m.state, c) by { RenewStepIs(m.state, c); }
      var ns: nat :| ns != m.state.tasks[c.task].ns && RenewKey(m.state, c) in HeapAt(m.expirations, ns);
      assert Adds(m.state, c, m.state.tasks[c.task].ns, RenewKey(m.state, c));
    }
  }

  /** The converse of convergence: after a command that met a foreign entry, any claim admitted in that
      entry's namespace once it is due leaves the replica and its rebuilt copy in different states. */
  lemma HazardDiverges(m: Machine, c: Command, probe: Command, home: nat, k: Key, ns: nat)
    requires Coherent(m) && Sound(m.state) && !ClaimOverflows(m.state, c)
    requires Adds(m.state, c, home, k) && ns != home && k in HeapAt(m.expirations, ns)
    requires Claimant(Exec(m, c).m, probe, ns, k) && Unstuck(Exec(m, c).m, ns, probe.now)
    ensures
      var a := Exec(m, c).m;
      Exec(a, probe).m.state != Exec(Reinstalled(a), probe).m.state
  {
    hide Coherent, Sound, ClaimOverflows, Exec, Step, Adds, Misplaced, Unstuck, FromCheckpoint, Export, HeapAt, Admit,
      LeaseHolders;
    HazardMisplaces(m, c, home, k, ns);
    ExecRefines(m, c);
    StepSound(m.state, c);
    var a := Exec(m, c).m;
    SoundRestorable(a.state);
    RoundTrip(a.state);
    ClaimTellsApart(a, Reinstalled(a), probe, ns, k);
  }

  // ---- A claimant can always be found ----

  lemma {:induction false} FreshId(taken: set<nat>) returns (id: nat)
    ensures forall x | x in taken :: x < id
  {
    if taken == {} {
      id := 0;
    } else {
      var x :| x in taken;
      var rest := FreshId(taken - {x});
      id := if x < rest then rest else x + 1;
      assert forall y | y in taken :: y == x || y in taken - {x};
    }
  }

  /** The namespace of every entry is one that the Broker knows. */
  ghost predicate EntriesKnown(m: Machine) {
    forall ns: nat, k: Key :: k in HeapAt(m.expirations, ns) ==> ns in m.state.namespaces
  }

  /** The state after a new group `g` was made in `ns` and one member joined it. */
  function Manned(s: State, ns: nat, g: nat): State {
    s.(groups := s.groups[g := Groups.Group(ns, 1, 2, map[0 := Groups.Consumer({}, 0, 0, 1)])],
       revision := s.revision + 2)
  }

  function Manning(ns: nat, g: nat, max: nat): seq<Command> {
    [EnsureGroup(ns, g, max), BrokerState.Command.JoinGroup(g, 0, {}, 0, 1)]
  }

  lemma Opens(m: Machine, ns: nat, g: nat, max: nat)
    requires ns in m.state.namespaces && g !in m.state.groups && m.state.revision < U64_MAX
    requires CountAt(m.groupCounts, ns) < max
    ensures
      var m' := Exec(m, EnsureGroup(ns, g, max)).m;
      && m'.state == m.state.(groups := m.state.groups[g := Groups.NewGroup(ns)], revision := m.state.revision + 1)
      && m'.expirations == m.expirations && m'.active == m.active
  {
    hide PublishRun, LeaveRun, ReapRun, ClaimRun, RenewRun, CompleteRun, PruneRun, EnsureNamespaceStep, JoinStep,
      HeartbeatStep, AdvanceTermStep;
  }

  lemma Joins(m: Machine, ns: nat, g: nat)
    requires g in m.state.groups && m.state.groups[g] == Groups.NewGroup(ns) && m.state.revision < U64_MAX
    ensures
      var m' := Exec(m, BrokerState.Command.JoinGroup(g, 0, {}, 0, 1)).m;
      && m'.state == m.state.(
            groups := m.state.groups[g := Groups.Group(ns, 1, 2, map[0 := Groups.Consumer({}, 0, 0, 1)])],
                              revision := m.state.revision + 1)
      && m'.expirations == m.expirations && m'.active == m.active
  {}

  lemma Mans(m: Machine, ns: nat, g: nat, max: nat)
    requires ns in m.state.namespaces && g !in m.state.groups && m.state.revision + 1 < U64_MAX
    requires CountAt(m.groupCounts, ns) < max
    ensures
      var m' := After(m, Manning(ns, g, max));
      && m'.state == Manned(m.state, ns, g) && m'.expirations == m.expirations && m'.active == m.active
      && (Coherent(m) ==> Coherent(m'))
  {
    hide Exec, Coherent, CountAt, Hazard, Step, ClaimOverflows, Refines;
    var open, join := EnsureGroup(ns, g, max), BrokerState.Command.JoinGroup(g, 0, {}, 0, 1);
    Opens(m, ns, g, max);
    var m1 := Exec(m, open).m;
    Joins(m1, ns, g);
    assert Manning(ns, g, max)[1..] == [join] && [join][1..] == [];
    assert After(m1, [join]) == Exec(m1, join).m;
    if Coherent(m) {
      NoHazardUnless(m, open);
      ExecRefines(m, open);
      NoHazardUnless(m1, join);
      ExecRefines(m1, join);
    }
  }

  function LeaseIds(tasks: map<nat, Task>): set<nat> {
    set t | t in tasks && tasks[t].state.Leased? :: tasks[t].state.lease.leaseId
  }

  lemma MannedClaims(m: Machine, s: State, ns: nat, g: nat, lease: nat, k: Key)
    requires m.state == Manned(s, ns, g) && lease !in m.active && lease !in LeaseIds(s.tasks)
    ensures Claimant(m, BrokerState.Command.ClaimTask(g, 0, s.term, 1, lease, k.at, 0), ns, k)
  {
    assert LeaseHolders(s.tasks, lease) == {} by {
      forall t | t in s.tasks && s.tasks[t].state.Leased? ensures s.tasks[t].state.lease.leaseId != lease {
        assert s.tasks[t].state.lease.leaseId in LeaseIds(s.tasks);
      }
    }
  }

  lemma {:induction false} AfterThen(m: Machine, log: seq<Command>, c: Command)
    ensures After(m, log + [c]) == Exec(After(m, log), c).m
    decreases |log|
  {
    hide Exec;
    if log == [] {
      assert [c][1..] == [] && log + [c] == [c];
    } else {
      assert (log + [c])[1..] == log[1..] + [c];
      AfterThen(Exec(m, log[0]).m, log[1..], c);
    }
  }

  /** Same state, one with the misplaced entry and one coherent: three commands that anyone may send
      leave them in different states. */
  lemma Separable(a: Machine, b: Machine, ns: nat, k: Key)
    requires Misplaced(a, ns, k) && Room(a.state.tasks) && Coherent(b) && b.state == a.state
    requires ns in a.state.namespaces && a.state.revision + 1 < U64_MAX
    ensures exists log: seq<Command> :: After(a, log).state != After(b, log).state
  {
    hide Coherent, Exec, After, Claimant, Room, CountAt, HeapAt, Unstuck;
    var g := FreshId(a.state.groups.Keys);
    var lease := FreshId(LeaseIds(a.state.tasks) + a.active.Keys);
    var max := CountAt(a.groupCounts, ns) + CountAt(b.groupCounts, ns) + 1;
    Mans(a, ns, g, max);
    Mans(b, ns, g, max);
    var a', b' := After(a, Manning(ns, g, max)), After(b, Manning(ns, g, max));
    var probe := BrokerState.Command.ClaimTask(g, 0, a.state.term, 1, lease, k.at, 0);
    MannedClaims(a', a.state, ns, g, lease, k);
    RoomIsUnstuck(a', ns, k.at);
    ClaimTellsApart(a', b', probe, ns, k);
    AfterThen(a, Manning(ns, g, max), probe);
    AfterThen(b, Manning(ns, g, max), probe);
  }

  lemma NamespacesStay(s: State, c: Command)
    ensures s.namespaces.Keys <= Step(s, c).state.namespaces.Keys
  {
    hide FirstN, StaleKeys, CompletedKeys, RequeueAll, HeldByAny, InNamespace, GroupsInNamespace, LeaseHolders,
      ExpiredTasks, QueuedKeys, Tasks.ClaimTask;
  }

  lemma KnownStep(m: Machine, c: Command)
    requires Coherent(m) && Sound(m.state) && EntriesKnown(m) && !ClaimOverflows(m.state, c)
    ensures EntriesKnown(Exec(m, c).m)
  {
    hide Coherent, Exec, Step, ClaimOverflows, NextEntries, Push, DrainAt;
    ExecRefines(m, c);
    ExecEntries(m, c);
    NamespacesStay(m.state, c);
    forall ns: nat, k: Key | k in HeapAt(NextEntries(m.expirations, m.state, c), ns) ensures ns in m.state.namespaces {
      NextKnown(m, c, ns, k);
    }
  }

  lemma NextKnown(m: Machine, c: Command, ns: nat, k: Key)
    requires Sound(m.state) && EntriesKnown(m) && k in HeapAt(NextEntries(m.expirations, m.state, c), ns)
    ensures ns in m.state.namespaces
  {
    var s, e := m.state, m.expirations;
    hide Push, DrainAt, RenewStep, Admit, LeaseHolders, ClaimOverflows, GrantKey, HeapAt;
    if Renews(s, c) {
      PushHas(e, s.tasks[c.task].ns, RenewKey(s, c), ns, k);
    } else if FreshClaim(s, c) {
      var at := ClaimNamespace(s, c);
      DrainAtHas(e, at, c.now, ns, k);
      if Grants(s, c) {
        GrantIsInNamespace(s, c);
        PushHas(DrainAt(e, at, c.now), at, GrantKey(s, c), ns, k);
      }
    }
  }

  /** A hazard of this kind always shows in the end: unless a counter is exhausted, some commands after
      it leave the replica and its rebuilt copy in different states. */
  lemma HazardAlwaysShows(m: Machine, c: Command)
    requires Coherent(m) && Sound(m.state) && EntriesKnown(m) && Hazard(m, c) && !ClaimOverflows(m.state, c)
    requires Room(Exec(m, c).m.state.tasks) && Exec(m, c).m.state.revision + 1 < U64_MAX
    ensures
      var a := Exec(m, c).m;
      exists log: seq<Command> :: After(a, log).state != After(Reinstalled(a), log).state
  {
    ForeignIs(m, c);
    hide Coherent, Sound, ClaimOverflows, Exec, Step, Adds, Misplaced, Room, FromCheckpoint, Export, Hazard, After,
      Rebuild;
    var home: nat, k: Key, ns: nat :| Adds(m.state, c, home, k) && ns != home && k in HeapAt(m.expirations, ns);
    HazardMisplaces(m, c, home, k, ns);
    ExecRefines(m, c);
    StepSound(m.state, c);
    NamespacesStay(m.state, c);
    var a := Exec(m, c).m;
    SoundRestorable(a.state);
    RoundTrip(a.state);
    Separable(a, Reinstalled(a), ns, k);
  }
}
