/** A claim that overflows is never harmless either: repeating that same claim makes the replica that
    ran it and a copy rebuilt from a checkpoint give different replies. */
module Exhaustion {
  import opened Order
  import opened Tasks
  import opened BrokerState
  import opened BrokerMachine
  import opened Coherence
  import opened ClaimRefinement
  import opened Soundness
  import opened Checkpoints
  import opened Rebuilding
  import opened Replicas

  /** The machine after `n` times the same command. */
  function Again(m: Machine, c: Command, n: nat): Machine
    decreases n
  {
    if n == 0 then m else Again(Exec(m, c).m, c, n - 1)
  }

  // ---- A claim that has nothing to recover ----

  /** Why a lease on Task `t` cannot be granted, if it cannot. */
  function Obstacle(s: State, c: Command, t: nat): Option<Error>
    requires c.ClaimTask?
  {
    if c.now + c.duration > U64_MAX then Some(TimestampOverflow)
    else if s.revision >= U64_MAX then Some(CounterOverflow)
    else if t !in s.tasks then Some(TaskNotFound(t))
    else
      match Tasks.ClaimTask(s.tasks[t], GrantOf(c))
      case Err(e) => Some(TaskTransition(e))
      case Ok(_) => None
  }

  /** In state `s` the claim is fresh, no lease is due, and `q` is what is left of the ready queue. */
  predicate Idle(m: Machine, s: State, c: Command, q: multiset<Key>) {
    && m.state == s && FreshClaim(s, c) && c.lease !in m.active
    && HeapAt(m.ready, ClaimNamespace(s, c)) == q && (forall k | k in q :: IsQueued(s.tasks, k.id))
    && Due(HeapAt(m.expirations, ClaimNamespace(s, c)), s.tasks, c.now) == {}
  }

  lemma NothingDue(m: Machine, ns: nat, now: nat)
    requires Due(HeapAt(m.expirations, ns), m.state.tasks, now) == {}
    ensures RecoverExpired(m, ns, now) == Swept(Drained(m, ns, now), 0, None)
  {}

  lemma StillNothingDue(m: Machine, ns: nat, now: nat)
    requires Due(HeapAt(m.expirations, ns), m.state.tasks, now) == {}
    ensures Due(HeapAt(Drained(m, ns, now).expirations, ns), m.state.tasks, now) == {}
  {
    forall k | k in HeapAt(Drained(m, ns, now).expirations, ns) ensures k in HeapAt(m.expirations, ns) {
      DrainedHas(m, ns, now, ns, k);
    }
  }

  lemma RunsFresh(m: Machine, s: State, c: Command, q: multiset<Key>)
    requires Idle(m, s, c, q)
    ensures
      var ns, m' := ClaimNamespace(s, c), m.(changes := NoChanges);
      RecoverExpired(m', ns, c.now) == Swept(Drained(m', ns, c.now), 0, None) && Exec(m, c) == ClaimFresh(m', c, ns)
  {
    NothingDue(m.(changes := NoChanges), ClaimNamespace(s, c), c.now);
    hide RecoverExpired, ClaimFresh, Due, LeaseHolders;
  }

  lemma PopsFirst(q: multiset<Key>, tasks: map<nat, Task>)
    requires q != multiset{} && forall k | k in q :: IsQueued(tasks, k.id)
    ensures PopReady(q, tasks) == (q - multiset{MinKey(Support(q))}, Some(MinKey(Support(q)).id))
  {}

  lemma GrantDecides(m: Machine, c: Command, ns: nat, t: nat)
    requires c.ClaimTask?
    ensures match Obstacle(m.state, c, t)
            case Some(e) => GrantLease(m, c, ns, t) == Ran(m, Err(e))
            case None => GrantLease(m, c, ns, t).reply.Ok?
  {
    hide Push, AddHeld, ClaimReplyOf, LeaseKey;
  }

  /** The machine after the drain with `k` gone from the ready queue. */
  function Behind(m: Machine, ns: nat, now: nat, k: Key): Machine {
    var d := Drained(m, ns, now);
    d.(ready := d.ready[ns := HeapAt(d.ready, ns) - multiset{k}])
  }

  lemma FreshPops(m: Machine, s: State, c: Command, q: multiset<Key>)
    requires Idle(m, s, c, q)
    requires RecoverExpired(m, ClaimNamespace(s, c), c.now) == Swept(Drained(m, ClaimNamespace(s, c), c.now), 0, None)
    ensures
      var ns := ClaimNamespace(s, c);
      if q == multiset{} then ClaimFresh(m, c, ns).reply == Ok(NoClaim(s, c.expectedGeneration))
      else
        var k := MinKey(Support(q));
        ClaimFresh(m, c, ns) == GrantLease(Behind(m, ns, c.now, k), c, ns, k.id)
  {
    hide Due, RecoverExpired, Exec, LeaseHolders, Drain, GrantLease, Admit;
    if q != multiset{} {
      PopsFirst(q, s.tasks);
      hide PopReady, Support;
    }
  }

  lemma IdleBehind(m: Machine, s: State, c: Command, q: multiset<Key>, k: Key)
    requires Idle(m, s, c, q)
    ensures Idle(Behind(m, ClaimNamespace(s, c), c.now, k), s, c, q - multiset{k})
  {
    hide Due, LeaseHolders, Admit;
    StillNothingDue(m, ClaimNamespace(s, c), c.now);
  }

  /** An empty queue answers that there is nothing; otherwise the first Task decides, and if it cannot be
      leased it is lost from the queue while the state stays. */
  lemma IdleClaim(m: Machine, s: State, c: Command, q: multiset<Key>)
    requires Idle(m, s, c, q)
    ensures q == multiset{} ==> Exec(m, c).reply == Ok(NoClaim(s, c.expectedGeneration))
    ensures q != multiset{} ==>
              var k := MinKey(Support(q));
              match Obstacle(s, c, k.id)
              case Some(e) => Exec(m, c).reply == Err(e) && Idle(Exec(m, c).m, s, c, q - multiset{k})
              case None => Exec(m, c).reply.Ok?
  {
    var ns, m' := ClaimNamespace(s, c), m.(changes := NoChanges);
    RunsFresh(m, s, c, q);
    hide Due, RecoverExpired, Exec, LeaseHolders, Drain, ClaimFresh, GrantLease, Admit, PopReady, Obstacle, HeapAt;
    FreshPops(m', s, c, q);
    if q != multiset{} {
      var k := MinKey(Support(q));
      IdleBehind(m', s, c, q, k);
      GrantDecides(Behind(m', ns, c.now, k), c, ns, k.id);
    }
  }

  /** Two replicas in one state, one a Task behind in the queue, whose first Task cannot be leased: a
      repetition of the claim tells them apart. */
  lemma {:induction false} LagShows(x: Machine, y: Machine, s: State, c: Command, q: multiset<Key>) returns (n: nat)
    requires q != multiset{} && Idle(y, s, c, q) && Idle(x, s, c, q - multiset{MinKey(Support(q))})
    requires Obstacle(s, c, MinKey(Support(q)).id).Some?
    ensures Exec(Again(x, c, n), c).reply != Exec(Again(y, c, n), c).reply
    decreases |q|
  {
    hide Exec, Idle, Obstacle;
    var rest := q - multiset{MinKey(Support(q))};
    IdleClaim(y, s, c, q);
    IdleClaim(x, s, c, rest);
    if Exec(x, c).reply != Exec(y, c).reply {
      n := 0;
    } else {
      var n' := LagShows(Exec(x, c).m, Exec(y, c).m, s, c, rest);
      n := n' + 1;
    }
  }

  // ---- The queue that both replicas start from ----

  lemma SameQueue(a: Machine, b: Machine, ns: nat)
    requires ReadyOk(a.state.tasks, a.ready) && ReadyOk(b.state.tasks, b.ready) && a.state == b.state
    ensures HeapAt(a.ready, ns) == HeapAt(b.ready, ns)
  {
    forall k: Key ensures HeapAt(a.ready, ns)[k] == HeapAt(b.ready, ns)[k] {}
  }

  lemma QueueIs(m: Machine, ns: nat)
    requires ReadyOk(m.state.tasks, m.ready)
    ensures Support(HeapAt(m.ready, ns)) == QueuedKeys(m.state.tasks, ns)
    ensures forall k | k in HeapAt(m.ready, ns) :: IsQueued(m.state.tasks, k.id)
  {
    var h := HeapAt(m.ready, ns);
    forall k ensures k in Support(h) <==> k in QueuedKeys(m.state.tasks, ns) {
      assert h[k] == if IsReady(m.state.tasks, ns, k) then 1 else 0;
    }
  }

  lemma IdleIf(m: Machine, c: Command)
    requires ReadyOk(m.state.tasks, m.ready) && ActiveOk(m.state.tasks, m.active) && FreshClaim(m.state, c)
    requires Due(HeapAt(m.expirations, ClaimNamespace(m.state, c)), m.state.tasks, c.now) == {}
    ensures Idle(m, m.state, c, HeapAt(m.ready, ClaimNamespace(m.state, c)))
  {
    hide Due, LeaseHolders, Admit, ReadyOk, ActiveOk;
    ActiveIsHolder(m, c.lease);
    QueueIs(m, ClaimNamespace(m.state, c));
  }

  lemma IdleCoherent(m: Machine, c: Command)
    requires Coherent(m) && FreshClaim(m.state, c) && ClaimExpired(m.state, c) == {}
    ensures Idle(m, m.state, c, HeapAt(m.ready, ClaimNamespace(m.state, c)))
  {
    hide Due, LeaseHolders, Admit, ReadyOk, ActiveOk, Coherent, Idle;
    DueIsExpired(m, ClaimNamespace(m.state, c), c.now);
    Parts(m);
    IdleIf(m, c);
  }

  lemma StillFresh(s: State, c: Command, ids: set<nat>)
    requires FreshClaim(s, c) && AllLeased(s.tasks, ids)
    ensures FreshClaim(s.(tasks := RequeueAll(s.tasks, ids)), c)
    ensures ClaimNamespace(s.(tasks := RequeueAll(s.tasks, ids)), c) == ClaimNamespace(s, c)
  {
    var tasks := RequeueAll(s.tasks, ids);
    forall t | t in tasks && tasks[t].state.Leased? ensures tasks[t].state.lease.leaseId != c.lease {
      assert t !in LeaseHolders(s.tasks, c.lease);
    }
  }

  lemma StillExpired(tasks: map<nat, Task>, ns: nat, now: nat, ids: set<nat>)
    requires AllLeased(tasks, ids) && ids <= ExpiredTasks(tasks, ns, now)
    ensures ExpiredTasks(RequeueAll(tasks, ids), ns, now) == ExpiredTasks(tasks, ns, now) - ids
  {}

  lemma ReinstalledIs(m: Machine)
    requires Sound(m.state)
    ensures Reinstalled(m).state == m.state && Coherent(Reinstalled(m))
  {
    hide Coherent, Sound, Clean, FromCheckpoint, Export, Rebuild, Restorable;
    SoundRestorable(m.state);
    RoundTrip(m.state);
  }

  // ---- Recovery succeeded: the popped Task is missing ----

  lemma OverflowBlocks(s: State, c: Command)
    requires ClaimOverflows(s, c) && CanRequeue(s.tasks, ClaimExpired(s, c))
    ensures ClaimReady(s, c) != {}
    ensures Obstacle(s.(tasks := ClaimTasks(s, c)), c, MinKey(ClaimReady(s, c)).id).Some?
  {}

  lemma OverflowRuns(m: Machine, c: Command)
    requires Coherent(m) && ClaimOverflows(m.state, c)
    ensures Exec(m, c) == ClaimFresh(m.(changes := NoChanges), c, ClaimNamespace(m.state, c))
  {
    hide ClaimFresh, LeaseHolders, Admit;
    Parts(m);
    ActiveIsHolder(m, c.lease);
  }

  lemma LosesFirst(m: Machine, c: Command)
    requires Coherent(m) && ClaimOverflows(m.state, c) && CanRequeue(m.state.tasks, ClaimExpired(m.state, c))
    ensures
      var m', ns := m.(changes := NoChanges), ClaimNamespace(m.state, c);
      var rec := RecoverExpired(m', ns, c.now).m;
      && Coherent(rec) && rec.state == m.state.(tasks := ClaimTasks(m.state, c)) && ns in rec.ready
      && ClaimReady(m.state, c) != {} && Exec(m, c).m == Popped(rec, ns, MinKey(ClaimReady(m.state, c)))
  {
    OverflowBlocks(m.state, c);
    hide Coherent, Exec, LeaseHolders, Admit, ExpiredTasks, RequeueAll, RecoverExpired, ClaimFresh, GrantLease,
      CanRequeue, QueuedKeys, Attempt;
    RestatedAgrees(m, m.state.revision, NoChanges);
    OverflowRuns(m, c);
    var m' := m.(changes := NoChanges);
    ClaimPops(m', c);
    AttemptRefused(m'.state, c, RecoverExpired(m', ClaimNamespace(m.state, c), c.now).m);
  }

  lemma PoppedIdle(m: Machine, s: State, c: Command, q: multiset<Key>, k: Key)
    requires Idle(m, s, c, q) && ClaimNamespace(s, c) in m.ready
    ensures Idle(Popped(m, ClaimNamespace(s, c), k), s, c, q - multiset{k})
  {
    hide Due, LeaseHolders, Admit;
  }

  lemma PoppedParts(rec: Machine, c: Command)
    requires Coherent(rec) && Sound(rec.state) && FreshClaim(rec.state, c) && ClaimExpired(rec.state, c) == {}
    requires ClaimNamespace(rec.state, c) in rec.ready
    requires QueuedKeys(rec.state.tasks, ClaimNamespace(rec.state, c)) != {}
    ensures
      var ns := ClaimNamespace(rec.state, c);
      var k, q := MinKey(QueuedKeys(rec.state.tasks, ns)), HeapAt(rec.ready, ns);
      var a := Popped(rec, ns, k);
      && q != multiset{} && MinKey(Support(q)) == k
      && Idle(a, rec.state, c, q - multiset{k}) && Idle(Reinstalled(a), rec.state, c, q)
  {
    hide Coherent, Sound, LeaseHolders, Admit, QueuedKeys, Idle, ReadyOk, ActiveOk, HeapAt, Due, Reinstalled, Support;
    var ns := ClaimNamespace(rec.state, c);
    var k, q := MinKey(QueuedKeys(rec.state.tasks, ns)), HeapAt(rec.ready, ns);
    var a := Popped(rec, ns, k);
    Parts(rec);
    QueueIs(rec, ns);
    IdleCoherent(rec, c);
    PoppedIdle(rec, rec.state, c, q, k);
    ReinstalledIs(a);
    Parts(Reinstalled(a));
    SameQueue(rec, Reinstalled(a), ns);
    IdleCoherent(Reinstalled(a), c);
  }

  lemma AfterRecovery(m: Machine, c: Command) returns (n: nat)
    requires Coherent(m) && Sound(m.state) && ClaimOverflows(m.state, c)
    requires CanRequeue(m.state.tasks, ClaimExpired(m.state, c))
    ensures
      var a := Exec(m, c).m;
      Exec(Again(a, c, n), c).reply != Exec(Again(Reinstalled(a), c, n), c).reply
  {
    OverflowBlocks(m.state, c);
    hide Coherent, Exec, Sound, LeaseHolders, Admit, ExpiredTasks, RequeueAll, RecoverExpired, Idle, Obstacle,
      Reinstalled, CanRequeue, QueuedKeys, Again, HeapAt;
    var ns, s := ClaimNamespace(m.state, c), m.state.(tasks := ClaimTasks(m.state, c));
    var expired := ClaimExpired(m.state, c);
    LosesFirst(m, c);
    var rec := RecoverExpired(m.(changes := NoChanges), ns, c.now).m;
    RequeueSound(m.state, expired);
    StillFresh(m.state, c, expired);
    StillExpired(m.state.tasks, ns, c.now, expired);
    PoppedParts(rec, c);
    n := LagShows(Exec(m, c).m, Reinstalled(Exec(m, c).m), s, c, HeapAt(rec.ready, ns));
  }

  // ---- Recovery got stuck: the drained entries are missing ----

  /** `done` were requeued before the first of the others stopped the recovery. */
  predicate StuckAfter(tasks: map<nat, Task>, ids: set<nat>, done: set<nat>) {
    && AllLeased(tasks, ids) && done <= ids && ids - done != {} && MinId(ids - done) in tasks
    && tasks[MinId(ids - done)].revision >= U64_MAX
  }

  /** What the recovery that started in `m` left: exactly `done` requeued, the rest without an entry. */
  ghost predicate Halted(m: Machine, ids: set<nat>, done: set<nat>, r: Machine) {
    && StuckAfter(m.state.tasks, ids, done) && r.state == m.state.(tasks := RequeueAll(m.state.tasks, done))
    && r.expirations == m.expirations && Agrees(r, ids - done, {})
  }

  lemma HaltsAtOnce(m: Machine, ids: set<nat>)
    requires ids != {} && AllLeased(m.state.tasks, ids) && Agrees(m, ids, {})
    requires m.state.tasks[MinId(ids)].revision >= U64_MAX
    ensures Halted(m, ids, {}, m)
  {
    hide Agrees;
    assert ids - {} == ids && RequeueAll(m.state.tasks, {}) == m.state.tasks;
  }

  lemma StuckSmaller(tasks: map<nat, Task>, ids: set<nat>, t: nat, done: set<nat>)
    requires AllLeased(tasks, ids) && t in ids && StuckAfter(tasks[t := Requeued(tasks[t])], ids - {t}, done)
    ensures StuckAfter(tasks, ids, done + {t})
  {
    assert ids - (done + {t}) == ids - {t} - done;
    MinIdIn(ids - {t} - done);
  }

  lemma HaltsLater(m: Machine, ns: nat, ids: set<nat>, t: nat, done: set<nat>, r: Machine)
    requires AllLeased(m.state.tasks, ids) && t in ids && Halted(RequeueOne(m, t, ns), ids - {t}, done, r)
    ensures Halted(m, ids, done + {t}, r)
  {
    hide Agrees, RequeueAll, StuckAfter;
    StuckParts(RequeueOne(m, t, ns).state.tasks, ids - {t}, done);
    StuckSmaller(m.state.tasks, ids, t, done);
    StuckParts(m.state.tasks, ids, done + {t});
    RequeueAllStep(m.state.tasks, done + {t}, t);
    assert done + {t} - {t} == done && ids - (done + {t}) == ids - {t} - done;
  }

  lemma StuckParts(tasks: map<nat, Task>, ids: set<nat>, done: set<nat>)
    requires StuckAfter(tasks, ids, done)
    ensures AllLeased(tasks, ids) && AllLeased(tasks, done) && done <= ids
  {}

  lemma ExpiredAreLeased(tasks: map<nat, Task>, ns: nat, now: nat, ids: set<nat>)
    requires AllExpired(tasks, ns, now, ids)
    ensures AllLeased(tasks, ids) && forall t | t in ids :: tasks[t].ns == ns
  {
    forall t | t in ids ensures t in tasks && tasks[t].state.Leased? && tasks[t].ns == ns {
      assert t in ExpiredTasks(tasks, ns, now);
    }
  }

  lemma StopsAt(m: Machine, ns: nat, ids: set<nat>, now: nat, count: nat)
    requires ids != {} && AllExpired(m.state.tasks, ns, now, ids)
    requires m.state.tasks[MinId(ids)].revision >= U64_MAX
    ensures RequeueExpired(m, ns, ids, now, count) == Swept(m, count, Some(TaskTransition(TaskCounterOverflow)))
  {
    assert MinId(ids) in ExpiredTasks(m.state.tasks, ns, now);
  }

  lemma {:induction false} GetsStuck(m: Machine, ns: nat, ids: set<nat>, now: nat, count: nat) returns (done: set<nat>)
    requires AllExpired(m.state.tasks, ns, now, ids) && !CanRequeue(m.state.tasks, ids) && Agrees(m, ids, {})
    ensures Halted(m, ids, done, RequeueExpired(m, ns, ids, now, count).m)
    decreases |ids|
  {
    hide Agrees, RequeueOne, RequeueExpired, AllExpired, Halted;
    var t := MinId(ids);
    MinIdIn(ids);
    ExpiredAreLeased(m.state.tasks, ns, now, ids);
    if m.state.tasks[t].revision >= U64_MAX {
      StopsAt(m, ns, ids, now, count);
      HaltsAtOnce(m, ids);
      done := {};
    } else {
      RequeueAgrees(m, t, ids, {});
      assert {} - {t} == {};
      RequeueExpiredStep(m, ns, ids, now, count);
      var m' := RequeueOne(m, t, ns);
      var rest := GetsStuck(m', ns, ids - {t}, now, count + 1);
      HaltsLater(m, ns, ids, t, rest, RequeueExpired(m', ns, ids - {t}, now, count + 1).m);
      done := rest + {t};
    }
  }

  predicate DueGone(m: Machine, ns: nat, now: nat) {
    forall k | k in HeapAt(m.expirations, ns) :: k.at > now
  }

  lemma DrainedGone(m: Machine, ns: nat, now: nat)
    ensures DueGone(Drained(m, ns, now), ns, now)
  {
    forall k | k in HeapAt(Drained(m, ns, now).expirations, ns) ensures k.at > now {
      DrainedHas(m, ns, now, ns, k);
    }
  }

  lemma GoneNotDue(m: Machine, ns: nat, now: nat)
    requires DueGone(m, ns, now)
    ensures Due(HeapAt(m.expirations, ns), m.state.tasks, now) == {}
  {}

  /** An expired Task that cannot be requeued is first in line. */
  predicate StuckFirst(s: State, c: Command)
    requires FreshClaim(s, c)
  {
    var expired := ClaimExpired(s, c);
    expired != {} && MinId(expired) in s.tasks && s.tasks[MinId(expired)].revision >= U64_MAX
  }

  lemma RecoverIs(m: Machine, ns: nat, now: nat)
    requires Coherent(m) && ExpiredTasks(m.state.tasks, ns, now) != {}
    ensures RecoverExpired(m, ns, now) ==
              RequeueExpired(Drained(m, ns, now), ns, ExpiredTasks(m.state.tasks, ns, now), now, 0)
  {
    DueIsExpired(m, ns, now);
  }

  lemma StuckOverflows(s: State, c: Command)
    requires FreshClaim(s, c) && StuckFirst(s, c)
    ensures ClaimOverflows(s, c)
  {}

  lemma ClaimStops(m: Machine, c: Command)
    requires Coherent(m) && FreshClaim(m.state, c) && StuckFirst(m.state, c)
    ensures Exec(m, c) == Ran(Drained(m.(changes := NoChanges), ClaimNamespace(m.state, c), c.now),
                              Err(TaskTransition(TaskCounterOverflow)))
  {
    hide Coherent, LeaseHolders, Admit, RequeueExpired, RecoverExpired, Drain, Exec, ClaimOverflows, Drained;
    var m', ns := m.(changes := NoChanges), ClaimNamespace(m.state, c);
    RestatedAgrees(m, m.state.revision, NoChanges);
    StuckOverflows(m.state, c);
    OverflowRuns(m, c);
    RecoverIs(m', ns, c.now);
    DrainedState(m', ns, c.now);
    StopsAt(Drained(m', ns, c.now), ns, ClaimExpired(m.state, c), c.now, 0);
  }

  lemma DrainedState(m: Machine, ns: nat, now: nat)
    ensures Drained(m, ns, now).state == m.state
  {}

  lemma AgreesParts(m: Machine, unexpired: set<nat>)
    requires Agrees(m, unexpired, {})
    ensures ReadyOk(m.state.tasks, m.ready) && ActiveOk(m.state.tasks, m.active)
  {}

  lemma StuckStays(tasks: map<nat, Task>, ns: nat, now: nat, done: set<nat>)
    requires StuckAfter(tasks, ExpiredTasks(tasks, ns, now), done)
    ensures
      var after := RequeueAll(tasks, done);
      var left := ExpiredTasks(after, ns, now);
      left != {} && MinId(left) in after && after[MinId(left)].revision >= U64_MAX
  {
    StillExpired(tasks, ns, now, done);
  }

  lemma StopsHalfWay(m: Machine, c: Command) returns (done: set<nat>)
    requires Coherent(m) && ClaimOverflows(m.state, c) && !CanRequeue(m.state.tasks, ClaimExpired(m.state, c))
    ensures
      var ns := ClaimNamespace(m.state, c);
      Halted(Drained(m.(changes := NoChanges), ns, c.now), ClaimExpired(m.state, c), done, Exec(m, c).m)
  {
    hide Coherent, Agrees, LeaseHolders, Admit, RequeueExpired, RecoverExpired, Drained, Exec, ExpiredTasks, Halted;
    var m', ns, expired := m.(changes := NoChanges), ClaimNamespace(m.state, c), ClaimExpired(m.state, c);
    RestatedAgrees(m, m.state.revision, NoChanges);
    OverflowRuns(m, c);
    RecoverIs(m', ns, c.now);
    RecoverFails(m', ns, c.now);
    DrainedAgrees(m', ns, c.now);
    DrainedState(m', ns, c.now);
    done := GetsStuck(Drained(m', ns, c.now), ns, expired, c.now, 0);
  }

  /** The state in which a stuck claim leaves the replica. */
  lemma LeavesStuck(m: Machine, c: Command)
    requires Coherent(m) && Sound(m.state) && ClaimOverflows(m.state, c)
    requires !CanRequeue(m.state.tasks, ClaimExpired(m.state, c))
    ensures
      var a := Exec(m, c).m;
      && Sound(a.state) && FreshClaim(a.state, c) && StuckFirst(a.state, c)
      && Idle(a, a.state, c, HeapAt(a.ready, ClaimNamespace(a.state, c))) && ReadyOk(a.state.tasks, a.ready)
  {
    hide Coherent, Agrees, Sound, Drained, Idle, ReadyOk, ActiveOk, Exec, ExpiredTasks, RequeueAll, CanRequeue,
      StuckAfter, FreshClaim, ClaimOverflows, Due, HeapAt;
    OverflowIsFresh(m.state, c);
    var m', ns := m.(changes := NoChanges), ClaimNamespace(m.state, c);
    var done := StopsHalfWay(m, c);
    DrainedState(m', ns, c.now);
    StuckParts(m.state.tasks, ClaimExpired(m.state, c), done);
    RequeueSound(m.state, done);
    StillFresh(m.state, c, done);
    StuckStays(m.state.tasks, ns, c.now, done);
    var a := Exec(m, c).m;
    DrainedGone(m', ns, c.now);
    GoneNotDue(a, ns, c.now);
    AgreesParts(a, ClaimExpired(m.state, c) - done);
    IdleIf(a, c);
  }

  lemma AfterStuck(m: Machine, c: Command) returns (n: nat)
    requires Coherent(m) && Sound(m.state) && ClaimOverflows(m.state, c)
    requires !CanRequeue(m.state.tasks, ClaimExpired(m.state, c))
    ensures
      var a := Exec(m, c).m;
      Exec(Again(a, c, n), c).reply != Exec(Again(Reinstalled(a), c, n), c).reply
  {
    hide Coherent, Sound, LeaseHolders, Admit, Idle, ReadyOk, Exec, CanRequeue, Obstacle, HeapAt, Reinstalled,
      StuckFirst, ExpiredTasks, ClaimOverflows, QueuedKeys;
    LeavesStuck(m, c);
    var a := Exec(m, c).m;
    var b := Reinstalled(a);
    var ns := ClaimNamespace(a.state, c);
    var q := HeapAt(a.ready, ns);
    ReinstalledIs(a);
    ClaimStops(b, c);
    StoppedIdle(b, c);
    Parts(b);
    SameQueue(a, b, ns);
    IdleClaim(a, a.state, c, q);
    if Exec(a, c).reply != Exec(b, c).reply {
      n := 0;
    } else {
      var rest := LagShows(Exec(a, c).m, Exec(b, c).m, a.state, c, q);
      n := rest + 1;
    }
  }

  lemma StoppedIdle(b: Machine, c: Command)
    requires Coherent(b) && FreshClaim(b.state, c)
    ensures
      var ns := ClaimNamespace(b.state, c);
      Idle(Drained(b.(changes := NoChanges), ns, c.now), b.state, c, HeapAt(b.ready, ns))
  {
    hide LeaseHolders, Admit, Due, ReadyOk, ActiveOk, Coherent, Idle;
    var ns := ClaimNamespace(b.state, c);
    var d := Drained(b.(changes := NoChanges), ns, c.now);
    Parts(b);
    DrainedGone(b.(changes := NoChanges), ns, c.now);
    GoneNotDue(d, ns, c.now);
    IdleIf(d, c);
  }

  /** A claim that overflowed makes replicas part: some repetition of it is answered differently by the
      replica that ran it and by the copy rebuilt from its checkpoint. */
  lemma OverflowDiverges(m: Machine, c: Command)
    requires Coherent(m) && Sound(m.state) && ClaimOverflows(m.state, c)
    ensures
      var a := Exec(m, c).m;
      exists n: nat :: Exec(Again(a, c, n), c).reply != Exec(Again(Reinstalled(a), c, n), c).reply
  {
    hide Coherent, Sound, Exec, Again, Reinstalled, ClaimOverflows;
    assert FreshClaim(m.state, c) by { OverflowIsFresh(m.state, c); }
    if CanRequeue(m.state.tasks, ClaimExpired(m.state, c)) {
      var n := AfterRecovery(m, c);
    } else {
      var n := AfterStuck(m, c);
    }
  }

  lemma OverflowIsFresh(s: State, c: Command)
    requires ClaimOverflows(s, c)
    ensures FreshClaim(s, c)
  {}
}
