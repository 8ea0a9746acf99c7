/** Claim through the heaps is claim by its simple form: requeue what expired, lease the oldest. */
module ClaimRefinement {
  import opened Order
  import opened Tasks
  import opened BrokerState
  import opened BrokerMachine
  import opened Coherence

  // ---- Draining the expiration heap ----

  lemma {:induction false} DrainKeepsLater(h: multiset<Key>, now: nat)
    ensures forall k :: Drain(h, now)[k] == if k.at <= now then 0 else h[k]
    decreases |h|
  {
    if h != multiset{} {
      var least := MinKey(Support(h));
      assert least in h;
      if least.at > now {
        forall k ensures h[k] == if k.at <= now then 0 else h[k] {
          assert k in h ==> k in Support(h);
        }
      } else {
        DrainKeepsLater(h - multiset{least}, now);
      }
    }
  }

  /** Stale entries never count: what is due is exactly what has expired. */
  lemma DueIsExpired(m: Machine, ns: nat, now: nat)
    requires Coherent(m)
    ensures Due(HeapAt(m.expirations, ns), m.state.tasks, now) == ExpiredTasks(m.state.tasks, ns, now)
  {}

  function Drained(m: Machine, ns: nat, now: nat): Machine {
    if ns in m.expirations then m.(expirations := m.expirations[ns := Drain(m.expirations[ns], now)]) else m
  }

  lemma DrainedHas(m: Machine, ns: nat, now: nat, n: nat, k: Key)
    ensures k in HeapAt(Drained(m, ns, now).expirations, n) <==>
              k in HeapAt(m.expirations, n) && (n == ns ==> k.at > now)
  {
    DrainKeepsLater(HeapAt(m.expirations, ns), now);
  }

  /** After the drain only the expired leases are missing their entries. */
  lemma DrainedAgrees(m: Machine, ns: nat, now: nat)
    requires Coherent(m)
    ensures Agrees(Drained(m, ns, now), ExpiredTasks(m.state.tasks, ns, now), {})
  {
    var tasks, m' := m.state.tasks, Drained(m, ns, now);
    forall t | t in tasks && tasks[t].state.Leased? && t !in ExpiredTasks(tasks, ns, now)
      ensures LeaseKey(t, tasks[t].state.lease) in HeapAt(m'.expirations, tasks[t].ns)
    {
      DrainedHas(m, ns, now, tasks[t].ns, LeaseKey(t, tasks[t].state.lease));
    }
    forall n: nat, k: Key | k in HeapAt(m'.expirations, n) && Matches(tasks, k) ensures tasks[k.id].ns == n {
      DrainedHas(m, ns, now, n, k);
    }
  }

  // ---- Requeueing what expired ----

  predicate AllExpired(tasks: map<nat, Task>, ns: nat, now: nat, ids: set<nat>) {
    forall t | t in ids :: t in ExpiredTasks(tasks, ns, now)
  }

  lemma RequeueAllStep(tasks: map<nat, Task>, ids: set<nat>, t: nat)
    requires AllLeased(tasks, ids) && t in ids
    ensures AllLeased(tasks[t := Requeued(tasks[t])], ids - {t})
    ensures RequeueAll(tasks[t := Requeued(tasks[t])], ids - {t}) == RequeueAll(tasks, ids)
  {}

  /** What recovery leaves alone. */
  predicate SameButTasks(a: Machine, b: Machine) {
    && b.state == a.state.(tasks := b.state.tasks)
    && b.expirations == a.expirations && b.completed == a.completed
    && b.taskCounts == a.taskCounts && b.groupCounts == a.groupCounts
    && b.changes == a.changes.(tasks := b.changes.tasks)
    && b.active.Keys <= a.active.Keys
  }

  lemma RequeueExpiredStep(m: Machine, ns: nat, ids: set<nat>, now: nat, count: nat)
    requires ids != {} && AllExpired(m.state.tasks, ns, now, ids)
    requires m.state.tasks[MinId(ids)].revision < U64_MAX
    ensures
      var t := MinId(ids);
      var m' := RequeueOne(m, t, ns);
      && RequeueExpired(m, ns, ids, now, count) == RequeueExpired(m', ns, ids - {t}, now, count + 1)
      && AllExpired(m'.state.tasks, ns, now, ids - {t})
      && (CanRequeue(m.state.tasks, ids) <==> CanRequeue(m'.state.tasks, ids - {t}))
      && SameButTasks(m, m')
  {
    var t := MinId(ids);
    var tasks, tasks' := m.state.tasks, RequeueOne(m, t, ns).state.tasks;
    assert t in ExpiredTasks(tasks, ns, now);
    forall u | u in ids - {t} ensures u in ExpiredTasks(tasks', ns, now) {
      assert u in ExpiredTasks(tasks, ns, now);
    }
    if CanRequeue(tasks', ids - {t}) {
      forall u | u in ids && u in tasks ensures tasks[u].revision < U64_MAX {
        assert u != t ==> tasks'[u] == tasks[u];
      }
    }
  }

  lemma {:induction false} RequeueExpiredResult(m: Machine, ns: nat, ids: set<nat>, now: nat, count: nat)
    requires AllExpired(m.state.tasks, ns, now, ids) && CanRequeue(m.state.tasks, ids)
    ensures AllLeased(m.state.tasks, ids)
    ensures
      var r := RequeueExpired(m, ns, ids, now, count);
      && r.failed.None? && r.count == count + |ids| && SameButTasks(m, r.m)
      && r.m.state.tasks == RequeueAll(m.state.tasks, ids)
      && r.m.changes.tasks == m.changes.tasks + ids
    decreases |ids|
  {
    if ids == {} {
      assert RequeueAll(m.state.tasks, ids) == m.state.tasks;
    } else {
      var t := MinId(ids);
      assert t in ExpiredTasks(m.state.tasks, ns, now);
      RequeueExpiredStep(m, ns, ids, now, count);
      RequeueExpiredResult(RequeueOne(m, t, ns), ns, ids - {t}, now, count + 1);
      assert AllLeased(m.state.tasks, ids);
      RequeueAllStep(m.state.tasks, ids, t);
      assert m.changes.tasks + {t} + (ids - {t}) == m.changes.tasks + ids;
    }
  }

  lemma {:induction false} RequeueExpiredAgrees(m: Machine, ns: nat, ids: set<nat>, now: nat, count: nat)
    requires AllExpired(m.state.tasks, ns, now, ids) && CanRequeue(m.state.tasks, ids)
    requires Agrees(m, ids, {})
    ensures Coherent(RequeueExpired(m, ns, ids, now, count).m)
    decreases |ids|
  {
    if ids != {} {
      var t := MinId(ids);
      assert t in ExpiredTasks(m.state.tasks, ns, now);
      RequeueAgrees(m, t, ids, {});
      assert {} - {t} == {};
      RequeueExpiredStep(m, ns, ids, now, count);
      RequeueExpiredAgrees(RequeueOne(m, t, ns), ns, ids - {t}, now, count + 1);
    }
  }

  lemma LostExpiration(m: Machine, ns: nat, now: nat, t: nat)
    requires t in ExpiredTasks(m.state.tasks, ns, now)
    requires forall k :: k in HeapAt(m.expirations, ns) ==> k.at > now
    ensures !Coherent(m)
  {}

  /** A Task whose revision is exhausted stops the recovery, with its own entry already drained. */
  lemma {:induction false} RequeueExpiredFails(m: Machine, ns: nat, ids: set<nat>, now: nat, count: nat)
    requires AllExpired(m.state.tasks, ns, now, ids) && !CanRequeue(m.state.tasks, ids)
    requires forall k :: k in HeapAt(m.expirations, ns) ==> k.at > now
    ensures
      var r := RequeueExpired(m, ns, ids, now, count);
      r.failed == Some(TaskTransition(TaskCounterOverflow)) && !Coherent(r.m)
    decreases |ids|
  {
    var t := MinId(ids);
    assert t in ExpiredTasks(m.state.tasks, ns, now);
    if m.state.tasks[t].revision >= U64_MAX {
      LostExpiration(m, ns, now, t);
    } else {
      RequeueExpiredStep(m, ns, ids, now, count);
      RequeueExpiredFails(RequeueOne(m, t, ns), ns, ids - {t}, now, count + 1);
    }
  }

  lemma RecoverResult(m: Machine, ns: nat, now: nat)
    requires Coherent(m) && CanRequeue(m.state.tasks, ExpiredTasks(m.state.tasks, ns, now))
    ensures
      var r := RecoverExpired(m, ns, now);
      var expired := ExpiredTasks(m.state.tasks, ns, now);
      && r.failed.None? && r.count == |expired| && SameButTasks(Drained(m, ns, now), r.m)
      && r.m.state.tasks == RequeueAll(m.state.tasks, expired)
      && r.m.changes.tasks == m.changes.tasks + expired
  {
    var expired := ExpiredTasks(m.state.tasks, ns, now);
    DueIsExpired(m, ns, now);
    if ns in m.expirations {
      RequeueExpiredResult(Drained(m, ns, now), ns, expired, now, 0);
    } else {
      assert expired == {};
      assert RequeueAll(m.state.tasks, expired) == m.state.tasks;
    }
  }

  /** Recovery keeps the indexes in agreement exactly when no expired Task has an exhausted revision. */
  lemma RecoverAgrees(m: Machine, ns: nat, now: nat)
    requires Coherent(m) && CanRequeue(m.state.tasks, ExpiredTasks(m.state.tasks, ns, now))
    ensures Coherent(RecoverExpired(m, ns, now).m)
  {
    DueIsExpired(m, ns, now);
    if ns in m.expirations {
      DrainedAgrees(m, ns, now);
      RequeueExpiredAgrees(Drained(m, ns, now), ns, ExpiredTasks(m.state.tasks, ns, now), now, 0);
    }
  }

  lemma RecoverFails(m: Machine, ns: nat, now: nat)
    requires Coherent(m) && !CanRequeue(m.state.tasks, ExpiredTasks(m.state.tasks, ns, now))
    ensures
      var r := RecoverExpired(m, ns, now);
      r.failed == Some(TaskTransition(TaskCounterOverflow)) && !Coherent(r.m)
  {
    var m' := Drained(m, ns, now);
    DueIsExpired(m, ns, now);
    assert ns in m.expirations;
    forall k | k in HeapAt(m'.expirations, ns) ensures k.at > now {
      DrainedHas(m, ns, now, ns, k);
    }
    RequeueExpiredFails(m', ns, ExpiredTasks(m.state.tasks, ns, now), now, 0);
  }

  // ---- Popping the ready heap and granting ----

  lemma PopReadyIsLeast(m: Machine, ns: nat)
    requires ReadyOk(m.state.tasks, m.ready)
    ensures
      var ready := QueuedKeys(m.state.tasks, ns);
      var h := HeapAt(m.ready, ns);
      PopReady(h, m.state.tasks) ==
        if ready == {} then (multiset{}, None) else (h - multiset{MinKey(ready)}, Some(MinKey(ready).id))
  {
    var tasks, h := m.state.tasks, HeapAt(m.ready, ns);
    assert Support(h) == QueuedKeys(tasks, ns) by {
      forall k ensures k in Support(h) <==> k in QueuedKeys(tasks, ns) {
        assert h[k] == if IsReady(tasks, ns, k) then 1 else 0;
      }
    }
  }

  /** `m` after the least queued Task of `ns` left the ready heap. */
  function Popped(m: Machine, ns: nat, k: Key): Machine
    requires ns in m.ready
  {
    m.(ready := m.ready[ns := m.ready[ns] - multiset{k}])
  }

  lemma PoppedIsIncoherent(m: Machine, ns: nat, k: Key)
    requires ReadyOk(m.state.tasks, m.ready) && IsReady(m.state.tasks, ns, k) && ns in m.ready
    ensures !Coherent(Popped(m, ns, k))
  {}

  lemma PoppedReady(m: Machine, ns: nat, k: Key, task: Task)
    requires ReadyOk(m.state.tasks, m.ready) && IsReady(m.state.tasks, ns, k) && ns in m.ready
    requires !task.state.Queued?
    ensures ReadyOk(m.state.tasks[k.id := task], Popped(m, ns, k).ready)
  {
    var ready' := Popped(m, ns, k).ready;
    forall n: nat, j: Key
      ensures HeapAt(ready', n)[j] == if n == ns && j == k then 0 else HeapAt(m.ready, n)[j]
    {
      assert HeapAt(m.ready, ns)[k] == 1;
    }
    ReadyPopped(m.state.tasks, m.ready, k.id, task, ready');
  }

  /** `m` after `leased` was granted on the popped Task `k.id`. */
  function Granted(m: Machine, ns: nat, k: Key, leased: Task): Machine
    requires ns in m.ready && leased.state.Leased?
  {
    var l := leased.state.lease;
    Popped(m, ns, k).(
      state := m.state.(tasks := m.state.tasks[k.id := leased], revision := m.state.revision + 1),
      active := m.active[l.leaseId := k.id],
      held := AddHeld(m.held, (l.group, l.owner), k.id),
      expirations := Push(m.expirations, ns, LeaseKey(k.id, l)),
      changes := m.changes.(tasks := m.changes.tasks + {k.id}))
  }

  predicate Grantable(m: Machine, ns: nat, k: Key, leased: Task) {
    && ns in m.ready && IsReady(m.state.tasks, ns, k)
    && leased.state.Leased? && leased.state.lease.leaseId !in m.active && leased.ns == ns
  }

  lemma GrantAgrees(m: Machine, ns: nat, k: Key, leased: Task)
    requires Coherent(m) && Grantable(m, ns, k, leased)
    requires !Foreign(m.expirations, ns, LeaseKey(k.id, leased.state.lease))
    ensures Coherent(Granted(m, ns, k, leased))
  {
    var tasks, t := m.state.tasks, k.id;
    PoppedReady(m, ns, k, leased);
    CountsKept(tasks, m.taskCounts, t, leased);
    CompletedKept(tasks, m.completed, t, leased);
    LeaseExpiresPushed(tasks, m.expirations, t, leased);
    ForeignPushed(tasks, m.expirations, t, leased);
    ActiveAdded(tasks, m.active, t, leased);
    HeldAdded(tasks, m.held, t, leased);
  }

  lemma GrantDisagrees(m: Machine, ns: nat, k: Key, leased: Task)
    requires NoForeignMatch(m.state.tasks, m.expirations) && Grantable(m, ns, k, leased)
    requires Foreign(m.expirations, ns, LeaseKey(k.id, leased.state.lease))
    ensures !Coherent(Granted(m, ns, k, leased))
  {
    ForeignPushed(m.state.tasks, m.expirations, k.id, leased);
  }

  // ---- The whole command ----

  /** An admitted claim under a lease id that no leased Task carries. */
  predicate FreshClaim(s: State, c: Command) {
    && c.ClaimTask? && Admit(s, c.expectedTerm, c.group, c.member, c.expectedGeneration).None?
    && LeaseHolders(s.tasks, c.lease) == {}
  }

  function ClaimNamespace(s: State, c: Command): nat
    requires FreshClaim(s, c)
  {
    s.groups[c.group].ns
  }

  function ClaimExpired(s: State, c: Command): set<nat>
    requires FreshClaim(s, c)
  {
    ExpiredTasks(s.tasks, ClaimNamespace(s, c), c.now)
  }

  function ClaimTasks(s: State, c: Command): map<nat, Task>
    requires FreshClaim(s, c)
  {
    RequeueAll(s.tasks, ClaimExpired(s, c))
  }

  function ClaimReady(s: State, c: Command): set<Key>
    requires FreshClaim(s, c)
  {
    QueuedKeys(ClaimTasks(s, c), ClaimNamespace(s, c))
  }

  /** A deadline or counter that the claim would have to advance is already at its limit. */
  predicate ClaimOverflows(s: State, c: Command) {
    FreshClaim(s, c) &&
    (|| !CanRequeue(s.tasks, ClaimExpired(s, c))
     || (ClaimReady(s, c) != {} &&
         var task := ClaimTasks(s, c)[MinKey(ClaimReady(s, c)).id];
         || c.now + c.duration > U64_MAX || s.revision >= U64_MAX
         || task.state.lastEpoch >= U64_MAX || task.revision >= U64_MAX))
  }

  predicate Grants(s: State, c: Command) {
    FreshClaim(s, c) && ClaimReady(s, c) != {} && !ClaimOverflows(s, c)
  }

  /** The expiration entry of the lease that the claim grants. */
  function GrantKey(s: State, c: Command): Key
    requires Grants(s, c)
  {
    var t := MinKey(ClaimReady(s, c)).id;
    Key(c.now + c.duration, t, Epoch(s.tasks[t]) + 1)
  }

  ghost predicate ClaimHazard(m: Machine, c: Command) {
    || ClaimOverflows(m.state, c)
    || (Grants(m.state, c) && Foreign(m.expirations, ClaimNamespace(m.state, c), GrantKey(m.state, c)))
  }

  lemma ActiveIsHolder(m: Machine, lease: nat)
    requires ActiveOk(m.state.tasks, m.active)
    ensures lease in m.active <==> LeaseHolders(m.state.tasks, lease) != {}
    ensures lease in m.active ==> m.active[lease] == MinId(LeaseHolders(m.state.tasks, lease))
  {
    if lease in m.active {
      assert m.active[lease] in LeaseHolders(m.state.tasks, lease);
    }
  }

  lemma ReadyHeapExists(m: Machine, ns: nat)
    requires ReadyOk(m.state.tasks, m.ready) && QueuedKeys(m.state.tasks, ns) != {}
    ensures ns in m.ready && IsReady(m.state.tasks, ns, MinKey(QueuedKeys(m.state.tasks, ns)))
  {
    var k := MinKey(QueuedKeys(m.state.tasks, ns));
    assert IsReady(m.state.tasks, ns, k);
    assert HeapAt(m.ready, ns)[k] == 1;
  }

  lemma ExpiredBecomeReady(tasks: map<nat, Task>, ns: nat, now: nat)
    ensures forall t :: t in ExpiredTasks(tasks, ns, now) ==>
              ReadyKey(t, tasks[t]) in QueuedKeys(RequeueAll(tasks, ExpiredTasks(tasks, ns, now)), ns)
  {
    var after := RequeueAll(tasks, ExpiredTasks(tasks, ns, now));
    forall t | t in ExpiredTasks(tasks, ns, now) ensures ReadyKey(t, tasks[t]) in QueuedKeys(after, ns) {
      assert after[t] == Requeued(tasks[t]);
    }
  }

  /** With nothing queued after recovery there was nothing to recover either. */
  lemma NothingReady(tasks: map<nat, Task>, ns: nat, now: nat)
    requires QueuedKeys(RequeueAll(tasks, ExpiredTasks(tasks, ns, now)), ns) == {}
    ensures ExpiredTasks(tasks, ns, now) == {} && RequeueAll(tasks, ExpiredTasks(tasks, ns, now)) == tasks
  {
    ExpiredBecomeReady(tasks, ns, now);
    assert RequeueAll(tasks, {}) == tasks;
  }

  lemma ClaimFindsNothing(m: Machine, c: Command)
    requires Coherent(m) && FreshClaim(m.state, c) && m.changes == NoChanges
    requires CanRequeue(m.state.tasks, ClaimExpired(m.state, c)) && ClaimReady(m.state, c) == {}
    ensures
      var r := ClaimFresh(m, c, ClaimNamespace(m.state, c));
      && r.m.state == m.state && r.m.changes == NoChanges && r.reply == Ok(NoClaim(m.state, c.expectedGeneration))
      && Coherent(r.m)
  {
    var ns := ClaimNamespace(m.state, c);
    NothingReady(m.state.tasks, ns, c.now);
    RecoverResult(m, ns, c.now);
    RecoverAgrees(m, ns, c.now);
    var rec := RecoverExpired(m, ns, c.now).m;
    PopReadyIsLeast(rec, ns);
    assert ns in rec.ready ==> rec.ready[ns := multiset{}] == rec.ready by {
      if ns in rec.ready {
        forall k ensures rec.ready[ns][k] == 0 {
          assert HeapAt(rec.ready, ns)[k] == if IsReady(rec.state.tasks, ns, k) then 1 else 0;
          assert k in QueuedKeys(rec.state.tasks, ns) || !IsReady(rec.state.tasks, ns, k);
        }
      }
    }
  }

  /** The machine between recovery and grant: the least queued Task is about to be popped. */
  predicate AboutToPop(s: State, c: Command, rec: Machine)
    requires FreshClaim(s, c) && ClaimReady(s, c) != {}
  {
    var ns, k := ClaimNamespace(s, c), MinKey(ClaimReady(s, c));
    && ns in rec.ready && IsReady(rec.state.tasks, ns, k) && c.lease !in rec.active
    && rec.state == s.(tasks := ClaimTasks(s, c))
    && rec.changes == NoChanges.(tasks := ClaimExpired(s, c))
  }

  /** The grant that the code attempts from there. */
  function Attempt(s: State, c: Command, rec: Machine): Ran
    requires FreshClaim(s, c) && ClaimReady(s, c) != {} && ClaimNamespace(s, c) in rec.ready
  {
    var ns, k := ClaimNamespace(s, c), MinKey(ClaimReady(s, c));
    GrantLease(Popped(rec, ns, k), c, ns, k.id)
  }

  lemma PopsLeast(m: Machine, c: Command, rec: Machine)
    requires FreshClaim(m.state, c) && ClaimReady(m.state, c) != {}
    requires RecoverExpired(m, ClaimNamespace(m.state, c), c.now) == Swept(rec, |ClaimExpired(m.state, c)|, None)
    requires ReadyOk(rec.state.tasks, rec.ready) && c.lease !in rec.active
    requires rec.state == m.state.(tasks := ClaimTasks(m.state, c))
    requires rec.changes == NoChanges.(tasks := ClaimExpired(m.state, c))
    ensures AboutToPop(m.state, c, rec) && ClaimFresh(m, c, ClaimNamespace(m.state, c)) == Attempt(m.state, c, rec)
  {
    var ns := ClaimNamespace(m.state, c);
    PopReadyIsLeast(rec, ns);
    ReadyHeapExists(rec, ns);
  }

  lemma ClaimPops(m: Machine, c: Command)
    requires Coherent(m) && FreshClaim(m.state, c) && m.changes == NoChanges
    requires CanRequeue(m.state.tasks, ClaimExpired(m.state, c)) && ClaimReady(m.state, c) != {}
    ensures
      var ns := ClaimNamespace(m.state, c);
      var rec := RecoverExpired(m, ns, c.now).m;
      && Coherent(rec) && rec.expirations == Drained(m, ns, c.now).expirations
      && AboutToPop(m.state, c, rec) && ClaimFresh(m, c, ns) == Attempt(m.state, c, rec)
  {
    var ns := ClaimNamespace(m.state, c);
    RecoverResult(m, ns, c.now);
    RecoverAgrees(m, ns, c.now);
    ActiveIsHolder(m, c.lease);
    PopsLeast(m, c, RecoverExpired(m, ns, c.now).m);
  }

  function GrantOf(c: Command): Grant
    requires c.ClaimTask?
  {
    Grant(c.lease, c.member, c.group, c.expectedGeneration, c.now + c.duration)
  }

  function LeasedBy(s: State, c: Command): Task
    requires Grants(s, c)
  {
    Tasks.ClaimTask(ClaimTasks(s, c)[MinKey(ClaimReady(s, c)).id], GrantOf(c)).value
  }

  lemma ClaimStepGrants(s: State, c: Command)
    requires Grants(s, c)
    ensures
      var t := MinKey(ClaimReady(s, c)).id;
      var s' := s.(tasks := ClaimTasks(s, c)[t := LeasedBy(s, c)], revision := s.revision + 1);
      ClaimStep(s, c) == Outcome(s', NoChanges.(tasks := ClaimExpired(s, c) + {t}),
                                 Ok(ClaimReplyOf(s', t, LeasedBy(s, c), c.expectedGeneration)))
  {}

  lemma GrantLeaseIs(rec: Machine, c: Command, ns: nat, k: Key)
    requires c.ClaimTask? && ns in rec.ready && IsReady(rec.state.tasks, ns, k)
    requires c.now + c.duration <= U64_MAX && rec.state.revision < U64_MAX
    requires rec.state.tasks[k.id].state.lastEpoch < U64_MAX && rec.state.tasks[k.id].revision < U64_MAX
    ensures
      var leased := Tasks.ClaimTask(rec.state.tasks[k.id], GrantOf(c)).value;
      var m' := Granted(rec, ns, k, leased);
      GrantLease(Popped(rec, ns, k), c, ns, k.id) ==
        Ran(m', Ok(ClaimReplyOf(m'.state, k.id, leased, c.expectedGeneration)))
  {}

  lemma AttemptGrants(s: State, c: Command, rec: Machine)
    requires Grants(s, c) && AboutToPop(s, c, rec)
    ensures
      var ns, k := ClaimNamespace(s, c), MinKey(ClaimReady(s, c));
      && Grantable(rec, ns, k, LeasedBy(s, c)) && Attempt(s, c, rec).m == Granted(rec, ns, k, LeasedBy(s, c))
      && Attempt(s, c, rec).reply ==
           Ok(ClaimReplyOf(Attempt(s, c, rec).m.state, k.id, LeasedBy(s, c), c.expectedGeneration))
  {
    GrantLeaseIs(rec, c, ClaimNamespace(s, c), MinKey(ClaimReady(s, c)));
  }

  /** A claim that grants: the same state, reply and change set as the simple form. */
  lemma AttemptRefines(s: State, c: Command, rec: Machine)
    requires Grants(s, c) && AboutToPop(s, c, rec)
    ensures
      var r, o := Attempt(s, c, rec), ClaimStep(s, c);
      && r.m.state == o.state && r.m.changes == o.changes && r.reply == o.reply
  {
    AttemptGrants(s, c, rec);
    ClaimStepGrants(s, c);
  }

  lemma GrantKeyIs(s: State, c: Command)
    requires Grants(s, c)
    ensures LeaseKey(MinKey(ClaimReady(s, c)).id, LeasedBy(s, c).state.lease) == GrantKey(s, c)
  {}

  lemma ForeignDrained(m: Machine, ns: nat, now: nat, k: Key)
    ensures Foreign(Drained(m, ns, now).expirations, ns, k) <==> Foreign(m.expirations, ns, k)
  {
    forall other: nat | other != ns
      ensures k in HeapAt(m.expirations, other) <==> k in HeapAt(Drained(m, ns, now).expirations, other)
    {
      DrainedHas(m, ns, now, other, k);
    }
  }

  lemma ClaimGrantAgrees(m: Machine, c: Command)
    requires Coherent(m) && m.changes == NoChanges && Grants(m.state, c)
    ensures Coherent(ClaimFresh(m, c, ClaimNamespace(m.state, c)).m) <==> !ClaimHazard(m, c)
  {
    var ns := ClaimNamespace(m.state, c);
    var k := MinKey(ClaimReady(m.state, c));
    var rec := RecoverExpired(m, ns, c.now).m;
    ClaimPops(m, c);
    AttemptGrants(m.state, c, rec);
    GrantKeyIs(m.state, c);
    ForeignDrained(m, ns, c.now, GrantKey(m.state, c));
    if ClaimHazard(m, c) {
      GrantDisagrees(rec, ns, k, LeasedBy(m.state, c));
    } else {
      GrantAgrees(rec, ns, k, LeasedBy(m.state, c));
    }
  }

  lemma AttemptRefused(s: State, c: Command, rec: Machine)
    requires ClaimOverflows(s, c) && ClaimReady(s, c) != {} && AboutToPop(s, c, rec)
    requires CanRequeue(s.tasks, ClaimExpired(s, c))
    ensures
      var r := Attempt(s, c, rec);
      && r.reply.Err? && r.reply == ClaimStep(s, c).reply
      && r.m == Popped(rec, ClaimNamespace(s, c), MinKey(ClaimReady(s, c)))
  {}

  /** The simple form refuses, the code has already moved: recovered leases stay requeued and the
      popped Task (or the stuck lease) has lost its index entry. */
  lemma ClaimOverflowBreaks(m: Machine, c: Command)
    requires Coherent(m) && m.changes == NoChanges && ClaimOverflows(m.state, c)
    ensures
      var r := ClaimFresh(m, c, ClaimNamespace(m.state, c));
      r.reply.Err? && r.reply == ClaimStep(m.state, c).reply && !Coherent(r.m)
  {
    var ns := ClaimNamespace(m.state, c);
    if CanRequeue(m.state.tasks, ClaimExpired(m.state, c)) {
      ClaimPops(m, c);
      var rec := RecoverExpired(m, ns, c.now).m;
      AttemptRefused(m.state, c, rec);
      PoppedIsIncoherent(rec, ns, MinKey(ClaimReady(m.state, c)));
    } else {
      RecoverFails(m, ns, c.now);
    }
  }

  lemma ClaimFreshRefines(m: Machine, c: Command)
    requires Coherent(m) && m.changes == NoChanges && FreshClaim(m.state, c)
    ensures
      var r := ClaimFresh(m, c, ClaimNamespace(m.state, c));
      var o := ClaimStep(m.state, c);
      && r.reply == o.reply
      && (!ClaimOverflows(m.state, c) ==> r.m.state == o.state && r.m.changes == o.changes)
      && (Coherent(r.m) <==> !ClaimHazard(m, c))
  {
    if ClaimOverflows(m.state, c) {
      ClaimOverflowBreaks(m, c);
    } else if ClaimReady(m.state, c) == {} {
      ClaimFindsNothing(m, c);
    } else {
      ClaimPops(m, c);
      AttemptRefines(m.state, c, RecoverExpired(m, ClaimNamespace(m.state, c), c.now).m);
      ClaimGrantAgrees(m, c);
    }
  }

  /** Claim refines its simple form unless something overflows, and keeps the indexes in agreement
      exactly when nothing overflows and no other namespace already holds the new lease's entry. */
  lemma ClaimRefines(m: Machine, c: Command)
    requires Coherent(m) && m.changes == NoChanges && c.ClaimTask?
    ensures
      var r := ClaimRun(m, c);
      var o := ClaimStep(m.state, c);
      && r.reply == o.reply
      && (!ClaimOverflows(m.state, c) ==> r.m.state == o.state && r.m.changes == o.changes)
    ensures Coherent(ClaimRun(m, c).m) <==> !ClaimHazard(m, c)
  {
    ActiveIsHolder(m, c.lease);
    if FreshClaim(m.state, c) {
      ClaimFreshRefines(m, c);
      assert ClaimRun(m, c) == ClaimFresh(m, c, ClaimNamespace(m.state, c));
    } else {
      assert ClaimRun(m, c).m == m;
    }
  }
}
