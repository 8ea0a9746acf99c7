/** Pruning through the completed heap deletes exactly the oldest completed Tasks. */
module PruneRefinement {
  import opened Order
  import opened Tasks
  import opened Groups
  import opened BrokerState
  import opened BrokerMachine
  import opened Coherence

  /** The first `n` completed Tasks at or before the cutoff. */
  function Doomed(tasks: map<nat, Task>, cutoff: nat, n: nat): set<nat> {
    Members(FirstN(CompletedKeys(tasks, cutoff), n))
  }

  lemma CompletedKeyIs(tasks: map<nat, Task>, cutoff: nat, k: Key)
    ensures k in CompletedKeys(tasks, cutoff) <==> IsDone(tasks, k) && k.at <= cutoff
  {}

  lemma SupportIsDone(tasks: map<nat, Task>, completed: multiset<Key>, k: Key)
    requires CompletedOk(tasks, completed)
    ensures k in Support(completed) <==> IsDone(tasks, k)
    ensures completed[k] <= 1
  {}

  /** The heap's least entry is the oldest completed Task, if that is old enough. */
  lemma LeastCompleted(tasks: map<nat, Task>, completed: multiset<Key>, cutoff: nat)
    requires CompletedOk(tasks, completed) && completed != multiset{}
    ensures
      var k := MinKey(Support(completed));
      && IsDone(tasks, k) && completed[k] == 1
      && (if k.at > cutoff then CompletedKeys(tasks, cutoff) == {}
          else CompletedKeys(tasks, cutoff) != {} && k == MinKey(CompletedKeys(tasks, cutoff)))
  {
    var k := MinKey(Support(completed));
    var keys := CompletedKeys(tasks, cutoff);
    SupportIsDone(tasks, completed, k);
    forall j | j in keys ensures j in Support(completed) && (j == k || Below(k, j)) {
      CompletedKeyIs(tasks, cutoff, j);
      SupportIsDone(tasks, completed, j);
    }
    CompletedKeyIs(tasks, cutoff, k);
    if k.at <= cutoff {
      assert IsLeast(k, keys);
    }
  }

  lemma NoneCompleted(tasks: map<nat, Task>, cutoff: nat)
    requires CompletedOk(tasks, multiset{})
    ensures CompletedKeys(tasks, cutoff) == {}
  {
    forall k | k in CompletedKeys(tasks, cutoff) ensures false {
      SupportIsDone(tasks, multiset{}, k);
    }
  }

  lemma CompletedRemoved(tasks: map<nat, Task>, completed: multiset<Key>, k: Key)
    requires CompletedOk(tasks, completed) && IsDone(tasks, k)
    ensures CompletedOk(tasks - {k.id}, completed - multiset{k})
  {}

  lemma CompletedKeysRemoved(tasks: map<nat, Task>, k: Key, cutoff: nat)
    requires IsDone(tasks, k)
    ensures CompletedKeys(tasks - {k.id}, cutoff) == CompletedKeys(tasks, cutoff) - {k}
  {
    forall j ensures j in CompletedKeys(tasks - {k.id}, cutoff) <==> j in CompletedKeys(tasks, cutoff) - {k} {
      CompletedKeyIs(tasks, cutoff, j);
      CompletedKeyIs(tasks - {k.id}, cutoff, j);
    }
  }

  lemma DoomedStep(tasks: map<nat, Task>, cutoff: nat, n: nat, k: Key)
    requires n > 0 && CompletedKeys(tasks, cutoff) != {} && k == MinKey(CompletedKeys(tasks, cutoff))
    ensures k.id in tasks && IsDone(tasks, k)
    ensures k.id !in Doomed(tasks - {k.id}, cutoff, n - 1)
    ensures Doomed(tasks, cutoff, n) == {k.id} + Doomed(tasks - {k.id}, cutoff, n - 1)
    ensures |Doomed(tasks, cutoff, n)| == 1 + |Doomed(tasks - {k.id}, cutoff, n - 1)|
  {
    var keys := CompletedKeys(tasks, cutoff);
    assert IsDone(tasks, k);
    CompletedKeysRemoved(tasks, k, cutoff);
    var rest := FirstN(keys - {k}, n - 1);
    assert FirstN(keys, n) == {k} + rest;
    forall j | j in rest ensures j.id != k.id {
      CompletedKeyIs(tasks - {k.id}, cutoff, j);
    }
    forall t ensures t in Members({k} + rest) <==> t == k.id || t in Members(rest) {
      if t == k.id {
        assert k in {k} + rest;
      } else if t in Members(rest) {
        var j :| j in rest && j.id == t;
        assert j in {k} + rest;
      }
    }
  }

  // ---- First pass ----

  predicate Within(tasks: map<nat, Task>, all: map<nat, Task>) {
    forall t | t in tasks :: t in all && all[t] == tasks[t]
  }

  lemma WithinSelf(tasks: map<nat, Task>)
    ensures Within(tasks, tasks)
  {}

  /** Either pass stops here. */
  predicate Exhausted(h: multiset<Key>, cutoff: nat, n: nat) {
    n == 0 || h == multiset{} || MinKey(Support(h)).at > cutoff
  }

  lemma NotExhausted(h: multiset<Key>, cutoff: nat, n: nat)
    requires !Exhausted(h, cutoff, n)
    ensures n > 0 && h != multiset{} && Support(h) != {} && MinKey(Support(h)) in h
  {}

  lemma NothingDoomed(tasks: map<nat, Task>, h: multiset<Key>, cutoff: nat, n: nat)
    requires CompletedOk(tasks, h) && Exhausted(h, cutoff, n)
    ensures Doomed(tasks, cutoff, n) == {}
  {
    if h == multiset{} {
      NoneCompleted(tasks, cutoff);
    } else {
      LeastCompleted(tasks, h, cutoff);
    }
    assert FirstN(CompletedKeys(tasks, cutoff), n) == {};
  }

  lemma LeastDoomed(tasks: map<nat, Task>, h: multiset<Key>, cutoff: nat, n: nat)
    requires CompletedOk(tasks, h) && !Exhausted(h, cutoff, n)
    ensures
      var k := MinKey(Support(h));
      && k.id in tasks && Doomed(tasks, cutoff, n) == {k.id} + Doomed(tasks - {k.id}, cutoff, n - 1)
      && |Doomed(tasks, cutoff, n)| == 1 + |Doomed(tasks - {k.id}, cutoff, n - 1)|
  {
    LeastCompleted(tasks, h, cutoff);
    DoomedStep(tasks, cutoff, n, MinKey(Support(h)));
  }

  lemma ProbeStep(tasks: map<nat, Task>, all: map<nat, Task>, h: multiset<Key>, cutoff: nat, n: nat)
    requires CompletedOk(tasks, h) && Within(tasks, all) && !Exhausted(h, cutoff, n)
    ensures
      var k := MinKey(Support(h));
      && n > 0 && k in h && IsDone(tasks, k) && k.id in tasks && Within(tasks - {k.id}, all)
      && Probe(h, all, cutoff, n) == [k.id] + Probe(h - multiset{k}, all, cutoff, n - 1)
  {}

  lemma SelectedStep(tasks: map<nat, Task>, all: map<nat, Task>, t: nat, rest: seq<nat>, ns: nat)
    requires Within(tasks, all) && t in tasks && SelectedIn(all, rest, ns) <= |InNamespace(tasks - {t}, ns)|
    ensures SelectedIn(all, [t] + rest, ns) <= |InNamespace(tasks, ns)|
  {
    InNamespaceRemoved(tasks, t, ns);
    assert ([t] + rest)[1..] == rest;
  }

  /** The probe chooses the doomed Tasks, each once, and no namespace holds fewer than it loses. */
  ghost predicate ProbedRight(doomed: set<nat>, ids: seq<nat>) {
    (forall t :: t in ids <==> t in doomed) && |ids| == |doomed|
  }

  lemma ProbedRightStep(t: nat, doomed: set<nat>, rest: set<nat>, ids: seq<nat>)
    requires ProbedRight(rest, ids) && doomed == {t} + rest && |doomed| == 1 + |rest|
    ensures ProbedRight(doomed, [t] + ids)
  {}

  lemma ProbeNone(tasks: map<nat, Task>, all: map<nat, Task>, h: multiset<Key>, cutoff: nat, n: nat)
    requires CompletedOk(tasks, h) && Exhausted(h, cutoff, n)
    ensures ProbedRight(Doomed(tasks, cutoff, n), Probe(h, all, cutoff, n))
  {
    NothingDoomed(tasks, h, cutoff, n);
  }

  lemma {:induction false} ProbeSelects(
    tasks: map<nat, Task>, all: map<nat, Task>, h: multiset<Key>, cutoff: nat, n: nat)
    requires CompletedOk(tasks, h) && Within(tasks, all)
    ensures ProbedRight(Doomed(tasks, cutoff, n), Probe(h, all, cutoff, n))
    decreases n
  {
    hide *;
    if Exhausted(h, cutoff, n) {
      ProbeNone(tasks, all, h, cutoff, n);
    } else {
      NotExhausted(h, cutoff, n);
      var k := MinKey(Support(h));
      ProbeStep(tasks, all, h, cutoff, n);
      CompletedRemoved(tasks, h, k);
      ProbeSelects(tasks - {k.id}, all, h - multiset{k}, cutoff, n - 1);
      LeastDoomed(tasks, h, cutoff, n);
      ProbedRightStep(k.id, Doomed(tasks, cutoff, n), Doomed(tasks - {k.id}, cutoff, n - 1),
                      Probe(h - multiset{k}, all, cutoff, n - 1));
    }
  }

  lemma {:induction false} ProbeFits(
    tasks: map<nat, Task>, all: map<nat, Task>, h: multiset<Key>, cutoff: nat, n: nat, ns: nat)
    requires CompletedOk(tasks, h) && Within(tasks, all)
    ensures SelectedIn(all, Probe(h, all, cutoff, n), ns) <= |InNamespace(tasks, ns)|
    decreases n
  {
    if !Exhausted(h, cutoff, n) {
      var k := MinKey(Support(h));
      ProbeStep(tasks, all, h, cutoff, n);
      CompletedRemoved(tasks, h, k);
      ProbeFits(tasks - {k.id}, all, h - multiset{k}, cutoff, n - 1, ns);
      SelectedStep(tasks, all, k.id, Probe(h - multiset{k}, all, cutoff, n - 1), ns);
    }
  }

  lemma InNamespaceRemoved(tasks: map<nat, Task>, t: nat, ns: nat)
    requires t in tasks
    ensures |InNamespace(tasks, ns)| == |InNamespace(tasks - {t}, ns)| + if tasks[t].ns == ns then 1 else 0
  {
    if tasks[t].ns == ns {
      assert InNamespace(tasks, ns) == InNamespace(tasks - {t}, ns) + {t};
    } else {
      assert InNamespace(tasks, ns) == InNamespace(tasks - {t}, ns);
    }
  }

  // ---- Second pass ----

  /** `m` after the completed Task of `k` was deleted. */
  function Deleted(m: Machine, k: Key): Machine
    requires k.id in m.state.tasks && m.state.tasks[k.id].ns in m.taskCounts && m.taskCounts[m.state.tasks[k.id].ns] > 0
  {
    var ns := m.state.tasks[k.id].ns;
    m.(state := m.state.(tasks := m.state.tasks - {k.id}),
       completed := m.completed - multiset{k},
       taskCounts := m.taskCounts[ns := m.taskCounts[ns] - 1],
       changes := m.changes.(deleted := m.changes.deleted + {k.id}))
  }

  lemma Counted(m: Machine, t: nat)
    requires TaskCountsOk(m.state.tasks, m.taskCounts) && t in m.state.tasks
    ensures m.state.tasks[t].ns in m.taskCounts && m.taskCounts[m.state.tasks[t].ns] > 0
  {
    var ns := m.state.tasks[t].ns;
    assert t in InNamespace(m.state.tasks, ns);
    assert CountAt(m.taskCounts, ns) == |InNamespace(m.state.tasks, ns)|;
  }

  lemma CountsRemoved(tasks: map<nat, Task>, counts: map<nat, nat>, t: nat)
    requires TaskCountsOk(tasks, counts) && t in tasks && tasks[t].ns in counts && counts[tasks[t].ns] > 0
    ensures TaskCountsOk(tasks - {t}, counts[tasks[t].ns := counts[tasks[t].ns] - 1])
  {
    forall ns: nat
      ensures CountAt(counts[tasks[t].ns := counts[tasks[t].ns] - 1], ns) == |InNamespace(tasks - {t}, ns)|
    {
      InNamespaceRemoved(tasks, t, ns);
    }
  }

  lemma ReadyRemoved(tasks: map<nat, Task>, ready: map<nat, multiset<Key>>, t: nat)
    requires ReadyOk(tasks, ready) && !IsQueued(tasks, t)
    ensures ReadyOk(tasks - {t}, ready)
  {}

  lemma UnleasedRemoved(m: Machine, t: nat)
    requires t in m.state.tasks && !m.state.tasks[t].state.Leased?
    requires EveryLeaseExpires(m.state.tasks, m.expirations, {}) && NoForeignMatch(m.state.tasks, m.expirations)
    requires ActiveOk(m.state.tasks, m.active) && HeldOk(m.state.tasks, m.held, {})
    ensures EveryLeaseExpires(m.state.tasks - {t}, m.expirations, {})
    ensures NoForeignMatch(m.state.tasks - {t}, m.expirations)
    ensures ActiveOk(m.state.tasks - {t}, m.active) && HeldOk(m.state.tasks - {t}, m.held, {})
  {
    var tasks, rest := m.state.tasks, m.state.tasks - {t};
    forall group: nat, member: nat, u: nat
      ensures u in LeasesOf(m.held, (group, member)) <==> u in rest && HeldBy(rest[u], group, member)
    {
      assert u in LeasesOf(m.held, (group, member)) <==> u in tasks && u !in {} && HeldBy(tasks[u], group, member);
    }
  }

  lemma DeleteAgrees(m: Machine, k: Key)
    requires Coherent(m) && IsDone(m.state.tasks, k)
    requires m.state.tasks[k.id].ns in m.taskCounts && m.taskCounts[m.state.tasks[k.id].ns] > 0
    ensures Coherent(Deleted(m, k))
  {
    var tasks := m.state.tasks;
    CountsRemoved(tasks, m.taskCounts, k.id);
    ReadyRemoved(tasks, m.ready, k.id);
    CompletedRemoved(tasks, m.completed, k);
    UnleasedRemoved(m, k.id);
    hide IsDone, ReadyOk, EveryLeaseExpires, NoForeignMatch, ActiveOk, HeldOk, CompletedOk, TaskCountsOk, GroupCountsOk;
  }

  lemma DestroyStep(m: Machine, left: nat, cutoff: nat, count: nat)
    requires left > 0 && m.completed != multiset{}
    requires
      var k := MinKey(Support(m.completed));
      k.at <= cutoff && IsDone(m.state.tasks, k) && m.state.tasks[k.id].ns in m.taskCounts &&
      m.taskCounts[m.state.tasks[k.id].ns] > 0
    ensures Destroy(m, left, cutoff, count) ==
              Destroy(Deleted(m, MinKey(Support(m.completed))), left - 1, cutoff, count + 1)
  {}

  /** The destructive pass deletes exactly the Tasks that the probe chose. */
  predicate DestroyedRight(m: Machine, doomed: set<nat>, count: nat, r: Swept) {
    && r.failed.None? && r.count == count + |doomed|
    && r.m.state == m.state.(tasks := m.state.tasks - doomed)
    && r.m.changes == m.changes.(deleted := m.changes.deleted + doomed)
  }

  lemma DestroyNone(m: Machine, left: nat, cutoff: nat, count: nat)
    requires CompletedOk(m.state.tasks, m.completed) && Exhausted(m.completed, cutoff, left)
    ensures Destroy(m, left, cutoff, count).m == m
    ensures DestroyedRight(m, Doomed(m.state.tasks, cutoff, left), count, Destroy(m, left, cutoff, count))
  {
    NothingDoomed(m.state.tasks, m.completed, cutoff, left);
    assert m.state.tasks - {} == m.state.tasks;
    hide CompletedOk, Doomed;
  }

  lemma DestroyTurn(m: Machine, left: nat, cutoff: nat, count: nat)
    requires Coherent(m) && !Exhausted(m.completed, cutoff, left)
    ensures
      var k := MinKey(Support(m.completed));
      && left > 0 && k in m.completed && k.id in m.state.tasks
      && m.state.tasks[k.id].ns in m.taskCounts && m.taskCounts[m.state.tasks[k.id].ns] > 0
      && Coherent(Deleted(m, k)) && Deleted(m, k).state.tasks == m.state.tasks - {k.id}
      && Destroy(m, left, cutoff, count) == Destroy(Deleted(m, k), left - 1, cutoff, count + 1)
      && Doomed(m.state.tasks, cutoff, left) == {k.id} + Doomed(m.state.tasks - {k.id}, cutoff, left - 1)
      && |Doomed(m.state.tasks, cutoff, left)| == 1 + |Doomed(m.state.tasks - {k.id}, cutoff, left - 1)|
  {
    var k := MinKey(Support(m.completed));
    LeastCompleted(m.state.tasks, m.completed, cutoff);
    Counted(m, k.id);
    DestroyStep(m, left, cutoff, count);
    DeleteAgrees(m, k);
    DoomedStep(m.state.tasks, cutoff, left, k);
    hide *;
  }

  lemma DestroyedRightStep(m: Machine, k: Key, doomed: set<nat>, rest: set<nat>, count: nat, r: Swept)
    requires k.id in m.state.tasks && m.state.tasks[k.id].ns in m.taskCounts && m.taskCounts[m.state.tasks[k.id].ns] > 0
    requires doomed == {k.id} + rest && |doomed| == 1 + |rest|
    requires DestroyedRight(Deleted(m, k), rest, count + 1, r)
    ensures DestroyedRight(m, doomed, count, r)
  {}

  lemma {:induction false} DestroyRefines(m: Machine, left: nat, cutoff: nat, count: nat)
    requires Coherent(m)
    ensures Coherent(Destroy(m, left, cutoff, count).m)
    ensures DestroyedRight(m, Doomed(m.state.tasks, cutoff, left), count, Destroy(m, left, cutoff, count))
    decreases left
  {
    hide *;
    Parts(m);
    if Exhausted(m.completed, cutoff, left) {
      DestroyNone(m, left, cutoff, count);
    } else {
      NotExhausted(m.completed, cutoff, left);
      var k := MinKey(Support(m.completed));
      DestroyTurn(m, left, cutoff, count);
      DestroyRefines(Deleted(m, k), left - 1, cutoff, count + 1);
      DestroyedRightStep(m, k, Doomed(m.state.tasks, cutoff, left), Doomed(m.state.tasks - {k.id}, cutoff, left - 1),
                         count, Destroy(m, left, cutoff, count));
    }
  }

  // ---- The whole command ----

  lemma NoUnderflow(m: Machine, cutoff: nat, n: nat)
    requires Coherent(m)
    ensures Underflows(m, Probe(m.completed, m.state.tasks, cutoff, n)) == {}
  {
    forall ns: nat
      ensures SelectedIn(m.state.tasks, Probe(m.completed, m.state.tasks, cutoff, n), ns) <= CountAt(m.taskCounts, ns)
    {
      ProbeFits(m.state.tasks, m.state.tasks, m.completed, cutoff, n, ns);
    }
  }

  lemma {:induction false} MembersSize(keys: set<Key>)
    requires forall a, b :: a in keys && b in keys && a.id == b.id ==> a == b
    ensures |Members(keys)| == |keys|
  {
    if keys == {} {
      assert Members(keys) == {};
    } else {
      var k := MinKey(keys);
      MembersSize(keys - {k});
      assert Members(keys) == Members(keys - {k}) + {k.id};
      assert k.id !in Members(keys - {k});
    }
  }

  /** Deleting as many as the probe chose deletes what it chose. */
  lemma DoomedBySize(tasks: map<nat, Task>, cutoff: nat, max: nat)
    ensures Doomed(tasks, cutoff, |Doomed(tasks, cutoff, max)|) == Doomed(tasks, cutoff, max)
  {
    var keys := CompletedKeys(tasks, cutoff);
    var first := FirstN(keys, max);
    MembersSize(first);
    FirstNUnique(keys, |first|, first);
  }

  lemma PruneCommits(m: Machine, cutoff: nat, max: nat, swept: Swept)
    requires m.changes == NoChanges && max > 0 && Doomed(m.state.tasks, cutoff, max) != {} && m.state.revision < U64_MAX
    requires DestroyedRight(m, Doomed(m.state.tasks, cutoff, max), 0, swept)
    ensures
      var o := PruneStep(m.state, cutoff, max);
      && PruneFinish(m, swept) == Ran(swept.m.(state := o.state, changes := o.changes), o.reply)
      && o.state == swept.m.state.(revision := m.state.revision + 1)
  {}

  lemma PruneRunIs(m: Machine, cutoff: nat, max: nat)
    requires m.changes == NoChanges
    requires ProbedRight(Doomed(m.state.tasks, cutoff, max), Probe(m.completed, m.state.tasks, cutoff, max))
    requires Underflows(m, Probe(m.completed, m.state.tasks, cutoff, max)) == {}
    ensures
      var doomed := Doomed(m.state.tasks, cutoff, max);
      var o := PruneStep(m.state, cutoff, max);
      if max > 0 && doomed != {} && m.state.revision < U64_MAX then
        PruneRun(m, cutoff, max) == PruneFinish(m, Destroy(m, |doomed|, cutoff, 0))
      else
        PruneRun(m, cutoff, max) == Ran(m, o.reply) && o == Outcome(m.state, NoChanges, o.reply)
  {}

  /** Prune is its simple form: the probe and the deletion agree and no count can underflow. */
  lemma PruneRefines(m: Machine, cutoff: nat, max: nat)
    requires Coherent(m) && m.changes == NoChanges
    ensures
      var r, o := PruneRun(m, cutoff, max), PruneStep(m.state, cutoff, max);
      && Coherent(r.m) && r.m.state == o.state && r.m.changes == o.changes && r.reply == o.reply
  {
    hide *;
    Parts(m);
    assert Within(m.state.tasks, m.state.tasks) by {
      WithinSelf(m.state.tasks);
    }
    var doomed := Doomed(m.state.tasks, cutoff, max);
    ProbeSelects(m.state.tasks, m.state.tasks, m.completed, cutoff, max);
    NoUnderflow(m, cutoff, max);
    PruneRunIs(m, cutoff, max);
    if max > 0 && doomed != {} && m.state.revision < U64_MAX {
      DoomedBySize(m.state.tasks, cutoff, max);
      DestroyRefines(m, |doomed|, cutoff, 0);
      var swept := Destroy(m, |doomed|, cutoff, 0);
      PruneCommits(m, cutoff, max, swept);
      RestatedAgrees(swept.m, m.state.revision + 1, PruneStep(m.state, cutoff, max).changes);
    }
  }
}
