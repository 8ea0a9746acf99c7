/** Convergence needs its condition: a log that publishes one Task id in two namespaces can make a
    replica that applied everything and one that was rebuilt from a checkpoint give different replies. */
module Divergence {
  import opened Order
  import opened Tasks
  import opened Groups
  import opened BrokerState
  import opened BrokerMachine
  import opened Coherence
  import opened ClaimRefinement
  import opened Atomicity
  import opened Runs
  import opened Ownership
  import opened Refinement
  import opened Soundness
  import opened Checkpoints
  import opened Rebuilding
  import opened Replicas

  // Two namespaces, one group and one member in each; Task 7 is leased in namespace 0.
  const MEMBER := Consumer({}, 0, 0, 1)
  const GROUPS := map[0 := Group(0, 1, 2, map[5 := MEMBER]), 1 := Group(1, 1, 2, map[6 := MEMBER])]
  const NAMESPACES: map<nat, nat> := map[0 := 1, 1 := 1]
  const LEASED := Task(0, 9, 0, 2, Leased(Lease(50, 5, 0, 1, 1, 100)))
  const ENTRY := Key(100, 7, 1)
  const START := Machine(
    State(1, 8, NAMESPACES, map[7 := LEASED], GROUPS), map[], map[0 := multiset{ENTRY}], map[50 := 7],
    map[(0, 5) := {7}], multiset{}, map[0 := 1], map[0 := 1, 1 := 1], NoChanges)

  // Task 7 is completed and pruned; its expiration entry stays behind in namespace 0.  Then the same
  // id is published in namespace 1 and leased there with the same deadline and epoch.
  const COMPLETE := BrokerState.Command.CompleteTask(7, 0, 5, 1, 1, 1, 50, 3, 10)
  const PRUNE := PruneCompleted(10, 1)
  const PUBLISH := PublishTask(1, 7, 9, 0, 10)
  const CLAIM := BrokerState.Command.ClaimTask(1, 6, 1, 1, 51, 0, 100)
  // A claim in namespace 0 at the old deadline.
  const PROBE := BrokerState.Command.ClaimTask(0, 5, 1, 1, 52, 100, 100)

  const DONE := Task(0, 9, 0, 3, Completed(Completion(50, 5, 0, 1, 1, 3, 10)))
  const COMPLETED := START.(
    state := State(1, 9, NAMESPACES, map[7 := DONE], GROUPS), active := map[], held := map[],
    completed := multiset{Key(10, 7, 0)}, changes := NoChanges.(tasks := {7}))
  const PRUNED := COMPLETED.(
    state := State(1, 10, NAMESPACES, map[], GROUPS), completed := multiset{}, taskCounts := map[0 := 0],
    changes := NoChanges.(deleted := {7}))
  const QUEUED := Task(1, 9, 0, 1, Queued(0))
  const PUBLISHED := PRUNED.(
    state := State(1, 11, NAMESPACES, map[7 := QUEUED], GROUPS), taskCounts := map[0 := 0, 1 := 1],
    ready := map[1 := multiset{Key(0, 7, 0)}], changes := NoChanges.(tasks := {7}))
  const AGAIN := Task(1, 9, 0, 2, Leased(Lease(51, 6, 1, 1, 1, 100)))
  const CLAIMED := PUBLISHED.(
    state := State(1, 12, NAMESPACES, map[7 := AGAIN], GROUPS), ready := map[1 := multiset{}], active := map[51 := 7],
    held := map[(1, 6) := {7}], expirations := map[0 := multiset{ENTRY}, 1 := multiset{ENTRY}])

  lemma LeastOfOne(k: Key)
    ensures Support(multiset{k}) == {k} && MinKey(Support(multiset{k})) == k && multiset{k} - multiset{k} == multiset{}
  {}

  lemma Completes()
    ensures Exec(START, COMPLETE) == Ran(COMPLETED, Ok(CompletedReply(Meta(1, 9), 7, 3, StatusCompleted)))
  {
    assert START.state.tasks[7 := DONE] == map[7 := DONE];
    assert START.active - {50} == map[];
    assert START.held - {(0, 5)} == map[];
    assert multiset{} + multiset{Key(10, 7, 0)} == multiset{Key(10, 7, 0)};
  }

  lemma ProbeOne()
    ensures Probe(COMPLETED.completed, COMPLETED.state.tasks, 10, 1) == [7]
    ensures Underflows(COMPLETED.(changes := NoChanges), [7]) == {}
  {
    LeastOfOne(Key(10, 7, 0));
    assert SelectedIn(COMPLETED.state.tasks, [7], 0) == 1 by { assert [7][1..] == []; }
  }

  lemma DestroyOne()
    ensures Destroy(COMPLETED.(changes := NoChanges), 1, 10, 0) ==
              Swept(PRUNED.(state := PRUNED.state.(revision := 9)), 1, None)
  {}

  lemma Prunes()
    ensures Exec(COMPLETED, PRUNE) == Ran(PRUNED, Ok(PrunedReply(Meta(1, 10), 1)))
  {
    ProbeOne();
    DestroyOne();
    hide Probe, Destroy, Underflows;
  }

  lemma Publishes()
    ensures Exec(PRUNED, PUBLISH).m == PUBLISHED
  {
    var k := Key(0, 7, 0);
    assert multiset{} + multiset{k} == multiset{k};
    assert PRUNED.state.tasks[7 := QUEUED] == map[7 := QUEUED];
    assert PRUNED.taskCounts[1 := 1] == map[0 := 0, 1 := 1];
    assert Push(PRUNED.ready, 1, k) == map[1 := multiset{k}];
    hide Push;
  }

  lemma GrantParts()
    ensures Tasks.ClaimTask(QUEUED, Grant(51, 6, 1, 1, 100)) == Ok(AGAIN)
    ensures map[7 := QUEUED][7 := AGAIN] == map[7 := AGAIN] && {} + {7} == {7}
    ensures Push(PUBLISHED.expirations, 1, ENTRY) == CLAIMED.expirations && LeaseKey(7, AGAIN.state.lease) == ENTRY
    ensures AddHeld(PUBLISHED.held, (1, 6), 7) == CLAIMED.held && PUBLISHED.active[51 := 7] == CLAIMED.active
  {
    assert multiset{} + multiset{ENTRY} == multiset{ENTRY};
  }

  lemma Grants()
    ensures GrantLease(PUBLISHED.(ready := map[1 := multiset{}], changes := NoChanges), CLAIM, 1, 7).m == CLAIMED
  {
    GrantParts();
    hide Push, AddHeld, Tasks.ClaimTask, LeaseKey, ClaimReplyOf;
  }

  lemma FindsOne()
    ensures PopReady(HeapAt(PUBLISHED.ready, 1), PUBLISHED.state.tasks) == (multiset{}, Some(7))
    ensures RecoverExpired(PUBLISHED.(changes := NoChanges), 1, 0) == Swept(PUBLISHED.(changes := NoChanges), 0, None)
    ensures PUBLISHED.ready[1 := multiset{}] == map[1 := multiset{}]
  {}

  lemma Claims()
    ensures Exec(PUBLISHED, CLAIM).m == CLAIMED
  {
    FindsOne();
    Grants();
    hide PopReady, RecoverExpired, GrantLease, HeapAt;
  }

  // ---- The probe ----

  const DRAINED := CLAIMED.(expirations := map[0 := multiset{}, 1 := multiset{ENTRY}], changes := NoChanges)

  lemma LeastIdOfOne(t: nat)
    ensures MinId({t}) == t && {t} - {t} == {}
  {}

  lemma Drains()
    ensures Drain(CLAIMED.expirations[0], 100) == multiset{}
    ensures Due(CLAIMED.expirations[0], CLAIMED.state.tasks, 100) == {7}
    ensures CLAIMED.expirations[0 := multiset{}] == DRAINED.expirations
  {
    LeastOfOne(ENTRY);
    assert ENTRY in CLAIMED.expirations[0] && Matches(CLAIMED.state.tasks, ENTRY);
  }

  lemma Steals()
    ensures RecoverExpired(CLAIMED.(changes := NoChanges), 0, 100) == Swept(RequeueOne(DRAINED, 7, 0), 1, None)
  {
    Drains();
    LeastIdOfOne(7);
    hide Drain, Due, RequeueOne;
    assert RequeueIfExpired(AGAIN, 100) == Ok((Requeued(AGAIN), true));
    assert RequeueExpired(DRAINED, 0, {7}, 100, 0) == RequeueExpired(RequeueOne(DRAINED, 7, 0), 0, {}, 100, 1);
  }

  lemma PopsStolen(m: Machine)
    requires m == RequeueOne(DRAINED, 7, 0)
    ensures 0 in m.ready && PopReady(HeapAt(m.ready, 0), m.state.tasks) == (multiset{}, Some(7))
    ensures m.state.tasks == map[7 := Requeued(AGAIN)] && m.state.revision == 12
  {
    LeastOfOne(Key(0, 7, 0));
    assert multiset{} + multiset{Key(0, 7, 0)} == multiset{Key(0, 7, 0)};
  }

  lemma GrantsStolen(m: Machine)
    requires m.state.tasks == map[7 := Requeued(AGAIN)] && m.state.revision == 12
    ensures
      var r := GrantLease(m, PROBE, 0, 7).reply;
      r.Ok? && r.value.ClaimReply? && r.value.claimed == Some(7)
  {}

  lemma ProbeIsFresh()
    ensures Exec(CLAIMED, PROBE) == ClaimFresh(CLAIMED.(changes := NoChanges), PROBE, 0)
  {
    hide ClaimFresh;
  }

  lemma FreshGrants(m: Machine, rec: Machine)
    requires RecoverExpired(m, 0, 100) == Swept(rec, 1, None)
    requires 0 in rec.ready && PopReady(HeapAt(rec.ready, 0), rec.state.tasks) == (multiset{}, Some(7))
    ensures ClaimFresh(m, PROBE, 0) == GrantLease(rec.(ready := rec.ready[0 := multiset{}]), PROBE, 0, 7)
  {}

  /** The replica that applied everything hands Task 7 of namespace 1 to the claimant in namespace 0. */
  lemma FullReplicaGrants()
    ensures
      var r := Exec(CLAIMED, PROBE).reply;
      r.Ok? && r.value.ClaimReply? && r.value.claimed == Some(7)
  {
    var rec := RequeueOne(DRAINED, 7, 0);
    hide *;
    ProbeIsFresh();
    Steals();
    PopsStolen(rec);
    FreshGrants(CLAIMED.(changes := NoChanges), rec);
    GrantsStolen(rec.(ready := rec.ready[0 := multiset{}]));
  }

  lemma OneTaskIsSound(revision: nat, task: Task)
    requires TaskSound(task, NAMESPACES) && Owned(task, GROUPS)
    ensures Sound(State(1, revision, NAMESPACES, map[7 := task], GROUPS))
  {}

  lemma StateIsSound()
    ensures Sound(START.state) && Sound(CLAIMED.state)
  {
    OneTaskIsSound(8, LEASED);
    OneTaskIsSound(12, AGAIN);
    hide Sound;
  }

  lemma NothingThere()
    ensures Step(CLAIMED.state, PROBE).reply == Ok(NoClaim(CLAIMED.state, 1))
  {
    assert LeaseHolders(CLAIMED.state.tasks, 52) == {};
    assert ExpiredTasks(CLAIMED.state.tasks, 0, 100) == {};
    assert RequeueAll(CLAIMED.state.tasks, {}) == CLAIMED.state.tasks;
    assert QueuedKeys(CLAIMED.state.tasks, 0) == {};
    hide LeaseHolders, ExpiredTasks, RequeueAll, QueuedKeys;
  }

  /** The replica rebuilt from the checkpoint of the same state finds nothing to claim. */
  lemma RestoredReplicaRefuses()
    ensures
      var r := Exec(Reinstalled(CLAIMED), PROBE).reply;
      r.Ok? && r.value.ClaimReply? && r.value.claimed == None
  {
    hide Exec, Step, FromCheckpoint, Export, Coherent, Clean, Sound;
    StateIsSound();
    SoundRestorable(CLAIMED.state);
    RoundTrip(CLAIMED.state);
    ExecRefines(Reinstalled(CLAIMED), PROBE);
    NothingThere();
  }

  lemma StartCounts()
    ensures TaskCountsOk(START.state.tasks, START.taskCounts) && GroupCountsOk(START.state.groups, START.groupCounts)
  {
    assert InNamespace(START.state.tasks, 0) == {7};
    assert forall ns: nat | ns > 0 :: InNamespace(START.state.tasks, ns) == {};
    assert GroupsInNamespace(START.state.groups, 0) == {0} && GroupsInNamespace(START.state.groups, 1) == {1};
    assert forall ns: nat | ns > 1 :: GroupsInNamespace(START.state.groups, ns) == {};
  }

  lemma StartLeases()
    ensures ActiveOk(START.state.tasks, START.active) && HeldOk(START.state.tasks, START.held, {})
    ensures EveryLeaseExpires(START.state.tasks, START.expirations, {})
    ensures NoForeignMatch(START.state.tasks, START.expirations)
  {}

  lemma StartHeaps()
    ensures ReadyOk(START.state.tasks, START.ready) && CompletedOk(START.state.tasks, START.completed)
  {}

  lemma StartIsCoherent()
    ensures Coherent(START)
  {
    hide *;
    StartCounts();
    StartLeases();
    StartHeaps();
    Whole(START);
  }

  /** From a coherent and sound Broker: after four commands the replicas agree on the state, and the
      fifth is answered differently by the one that was rebuilt from a checkpoint. */
  lemma ReplicasCanDiverge()
    ensures Coherent(START) && Sound(START.state)
    ensures
      var m := ReplicaAfter(START, [Apply(COMPLETE), Apply(PRUNE), Apply(PUBLISH), Apply(CLAIM)]);
      Exec(m, PROBE).reply != Exec(Reinstalled(m), PROBE).reply
  {
    StartIsCoherent();
    StateIsSound();
    hide Coherent, Sound, Exec, Reinstalled;
    Completes();
    Prunes();
    Publishes();
    Claims();
    FullReplicaGrants();
    RestoredReplicaRefuses();
    var rest := [Apply(PRUNE), Apply(PUBLISH), Apply(CLAIM)];
    assert [Apply(COMPLETE), Apply(PRUNE), Apply(PUBLISH), Apply(CLAIM)][1..] == rest;
    assert rest[1..] == [Apply(PUBLISH), Apply(CLAIM)];
    assert [Apply(PUBLISH), Apply(CLAIM)][1..] == [Apply(CLAIM)];
    assert ReplicaAfter(COMPLETED, rest) == ReplicaAfter(PRUNED, [Apply(PUBLISH), Apply(CLAIM)]);
    assert ReplicaAfter(PUBLISHED, [Apply(CLAIM)]) == CLAIMED;
  }

  lemma SoundOwned(s: State)
    requires Sound(s)
    ensures AllOwned(s)
  {}

  /** Ownership is lost with it: that claim leases a Task of namespace 1 to a member of namespace 0. */
  lemma OwnershipCanFail()
    ensures AllOwned(CLAIMED.state) && Abroad(CLAIMED, PROBE) && !AllOwned(Exec(CLAIMED, PROBE).m.state)
  {
    hide AllOwned, Exec, Sound;
    StateIsSound();
    SoundOwned(CLAIMED.state);
    FullReplicaGrants();
    ClaimOwned(CLAIMED, PROBE);
  }

  // ---- How a Broker gets there ----

  const SETUP := [
    EnsureNamespace(0, 10), EnsureNamespace(1, 10), EnsureGroup(0, 0, 10), EnsureGroup(1, 1, 10),
    BrokerState.Command.JoinGroup(0, 5, {}, 0, 10), BrokerState.Command.JoinGroup(1, 6, {}, 0, 10),
    PublishTask(0, 7, 9, 0, 10), BrokerState.Command.ClaimTask(0, 5, 1, 1, 50, 0, 100)]

  const ONE: map<nat, nat> := map[0 := 1]
  const JOINED := Group(0, 1, 2, map[5 := MEMBER])
  const FRESH := Task(0, 9, 0, 1, Queued(0))
  const STATES := [
    EmptyState, State(1, 1, ONE, map[], map[]), State(1, 2, NAMESPACES, map[], map[]),
    State(1, 3, NAMESPACES, map[], map[0 := NewGroup(0)]),
    State(1, 4, NAMESPACES, map[], map[0 := NewGroup(0), 1 := NewGroup(1)]),
    State(1, 5, NAMESPACES, map[], map[0 := JOINED, 1 := NewGroup(1)]),
    State(1, 6, NAMESPACES, map[], GROUPS), State(1, 7, NAMESPACES, map[7 := FRESH], GROUPS), START.state]

  predicate Leads(s: State, c: Command, s': State) {
    Step(s, c).state == s' && !ClaimOverflows(s, c)
  }

  lemma NamespacesLead()
    ensures Leads(STATES[0], SETUP[0], STATES[1]) && Leads(STATES[1], SETUP[1], STATES[2])
  {
    assert ONE[1 := 1] == NAMESPACES;
  }

  lemma GroupsLead()
    ensures Leads(STATES[2], SETUP[2], STATES[3]) && Leads(STATES[3], SETUP[3], STATES[4])
  {
    assert GroupsInNamespace(STATES[2].groups, 0) == {} && GroupsInNamespace(STATES[3].groups, 1) == {};
    assert map[0 := NewGroup(0)][1 := NewGroup(1)] == map[0 := NewGroup(0), 1 := NewGroup(1)];
  }

  lemma JoinsLead()
    ensures Leads(STATES[4], SETUP[4], STATES[5]) && Leads(STATES[5], SETUP[5], STATES[6])
  {
    assert STATES[4].groups[0 := JOINED] == STATES[5].groups;
    assert STATES[5].groups[1 := Group(1, 1, 2, map[6 := MEMBER])] == GROUPS;
  }

  lemma PublishLeads()
    ensures Leads(STATES[6], SETUP[6], STATES[7])
  {
    assert InNamespace(STATES[6].tasks, 0) == {};
    assert STATES[6].tasks[7 := FRESH] == map[7 := FRESH];
  }

  lemma ClaimParts()
    ensures
      var s := STATES[7];
      && LeaseHolders(s.tasks, 50) == {} && ExpiredTasks(s.tasks, 0, 0) == {} && RequeueAll(s.tasks, {}) == s.tasks
      && QueuedKeys(s.tasks, 0) == {Key(0, 7, 0)} && s.tasks[7 := LEASED] == map[7 := LEASED]
  {
    assert 7 in STATES[7].tasks && STATES[7].tasks[7] == FRESH;
  }

  lemma ClaimLeads()
    ensures Leads(STATES[7], SETUP[7], STATES[8])
  {
    ClaimParts();
    hide LeaseHolders, ExpiredTasks, RequeueAll, QueuedKeys;
  }

  lemma {:induction false} LeadsThere(i: nat)
    requires i <= 8 && forall j | i <= j < 8 :: Leads(STATES[j], SETUP[j], STATES[j + 1])
    ensures StateAfter(STATES[i], SETUP[i..]) == START.state && NeverOverflows(STATES[i], SETUP[i..])
    decreases 8 - i
  {
    hide Step, ClaimOverflows;
    if i < 8 {
      assert SETUP[i..][0] == SETUP[i] && SETUP[i..][1..] == SETUP[i + 1..];
      LeadsThere(i + 1);
    }
  }

  lemma StartIsReached()
    ensures StateAfter(EmptyState, SETUP) == START.state && NeverOverflows(EmptyState, SETUP)
  {
    hide Leads, StateAfter, NeverOverflows;
    NamespacesLead();
    GroupsLead();
    JoinsLead();
    PublishLeads();
    ClaimLeads();
    assert SETUP[0..] == SETUP;
    LeadsThere(0);
  }

  lemma StartIsRebuilt()
    ensures Rebuild(START.state) == Ok(START)
  {
    var groups := START.state.groups;
    LeastIdOfOne(1);
    LeastIdOfOne(7);
    assert groups.Keys == {0, 1} && START.state.tasks.Keys == {7};
    assert MinId({0, 1}) == 0 && {0, 1} - {0} == {1};
    assert CountGroups(groups, {1}, map[0 := 1]) == CountGroups(groups, {}, map[0 := 1, 1 := 1]);
    assert CountGroups(groups, {0, 1}, map[]) == CountGroups(groups, {1}, map[0 := 1]);
    var m := Unindexed(START.state);
    assert multiset{} + multiset{ENTRY} == multiset{ENTRY};
    assert {} + {7} == {7};
    assert AddHeld(m.held, (0, 5), 7) == START.held;
    assert Push(m.expirations, 0, ENTRY) == START.expirations;
    assert IndexTask(m, 7, LEASED) == Ok(START);
    assert IndexTasks(m, {7}) == IndexTasks(START, {});
  }

  /** The Broker that diverges is an ordinary one: eight safe commands from nothing, and one restart. */
  lemma StartIsReachable()
    ensures Safe(EmptyMachine, SETUP) && Reinstalled(After(EmptyMachine, SETUP)) == START
  {
    hide Safe, After, Coherent, Sound, Homed, FromCheckpoint, Export, Rebuild, Replies, RepliesOf, NeverOverflows,
      StateAfter;
    EmptyIsGood();
    EmptyIsHomed();
    StartIsReached();
    assert forall c | c in SETUP :: KeepsHome(c, t => 0);
    HomedLogIsSafe(EmptyMachine, SETUP, t => 0);
    RunRefines(EmptyMachine, SETUP);
    StateIsSound();
    SoundRestorable(START.state);
    RoundTrip(START.state);
    StartIsRebuilt();
  }

  lemma EmptyIsHomed()
    ensures Homed(EmptyMachine, t => 0)
  {}

  // ---- A claim that fails half way ----

  /** Its deadline does not fit; Task 7 has expired by then. */
  const LATE := BrokerState.Command.ClaimTask(0, 5, 1, 1, 52, 100, U64_MAX)

  lemma LateParts()
    ensures
      var s := START.state;
      && LeaseHolders(s.tasks, 52) == {} && ExpiredTasks(s.tasks, 0, 100) == {7}
      && RequeueAll(s.tasks, {7}) == map[7 := Requeued(LEASED)]
      && QueuedKeys(map[7 := Requeued(LEASED)], 0) == {Key(0, 7, 0)}
  {
    assert 7 in START.state.tasks && START.state.tasks[7] == LEASED;
    assert 7 in map[7 := Requeued(LEASED)];
  }

  lemma LateOverflows()
    ensures ClaimOverflows(START.state, LATE) && Strays(START.state, LATE)
    ensures Step(START.state, LATE).reply == Err(TimestampOverflow)
  {
    LateParts();
    LeastIdOfOne(7);
    hide LeaseHolders, ExpiredTasks, RequeueAll, QueuedKeys;
  }

  /** A rejected command that changes the state: the claim is refused, and Task 7 has lost its lease. */
  lemma RefusedYetChanged()
    ensures Exec(START, LATE).reply == Err(TimestampOverflow) && Exec(START, LATE).m.state != START.state
    ensures Exec(START, LATE).m != START.(changes := NoChanges)
  {
    hide Exec, Step, Coherent, ClaimOverflows, Strays;
    StartIsCoherent();
    LateOverflows();
    ExecRefines(START, LATE);
    OverflowStrays(START, LATE);
    FailureIsAtomic(START, LATE);
  }
}
