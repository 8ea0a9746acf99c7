/** Rebuilding the indexes of a restored state, and the checkpoint round trip. */
module Rebuilding {
  import opened Order
  import opened Tasks
  import opened Groups
  import opened BrokerState
  import opened BrokerMachine
  import opened Coherence
  import opened Refinement
  import opened Soundness
  import opened Checkpoints

  /** Every expiration entry names a live lease of its own namespace: nothing stale is left. */
  ghost predicate Clean(m: Machine) {
    OnlyLive(m.state.tasks, m.expirations)
  }

  ghost predicate OnlyLive(tasks: map<nat, Task>, expirations: map<nat, multiset<Key>>) {
    forall ns: nat, k: Key :: k in HeapAt(expirations, ns) ==> Matches(tasks, k) && tasks[k.id].ns == ns
  }

  /** `m` with one more Task in the map and in the indexes. */
  function WithTask(m: Machine, indexed: Machine, t: nat, task: Task): Machine {
    indexed.(state := m.state.(tasks := m.state.tasks[t := task]))
  }

  lemma IndexedQueued(m: Machine, t: nat, task: Task)
    requires Coherent(m) && t !in m.state.tasks && task.state.Queued?
    ensures IndexTask(m, t, task).Ok? && Coherent(WithTask(m, IndexTask(m, t, task).value, t, task))
  {
    hide Coherent, ReadyOk, CompletedOk, EveryLeaseExpires, NoForeignMatch, ActiveOk, HeldOk, TaskCountsOk,
      GroupCountsOk, Clean, Foreign;
    var tasks := m.state.tasks;
    Parts(m);
    TaskCounted(tasks, m.taskCounts, t, task);
    ReadyPushed(tasks, m.ready, t, task);
    CompletedKept(tasks, m.completed, t, task);
    ExpirationsDropped(tasks, m.expirations, {}, t, task);
    assert {} - {t} == {};
    UnleasedKept(tasks, m.active, m.held, t, task);
    Whole(WithTask(m, IndexTask(m, t, task).value, t, task));
  }

  lemma IndexedCompleted(m: Machine, t: nat, task: Task)
    requires Coherent(m) && t !in m.state.tasks && task.state.Completed?
    ensures IndexTask(m, t, task).Ok? && Coherent(WithTask(m, IndexTask(m, t, task).value, t, task))
  {
    hide Coherent, ReadyOk, CompletedOk, EveryLeaseExpires, NoForeignMatch, ActiveOk, HeldOk, TaskCountsOk,
      GroupCountsOk, Clean, Foreign;
    var tasks := m.state.tasks;
    Parts(m);
    TaskCounted(tasks, m.taskCounts, t, task);
    ReadyKept(tasks, m.ready, t, task);
    CompletedPushed(tasks, m.completed, t, task);
    ExpirationsDropped(tasks, m.expirations, {}, t, task);
    assert {} - {t} == {};
    UnleasedKept(tasks, m.active, m.held, t, task);
    Whole(WithTask(m, IndexTask(m, t, task).value, t, task));
  }

  lemma NothingForeign(m: Machine, ns: nat, k: Key)
    requires Clean(m) && k.id !in m.state.tasks
    ensures !Foreign(m.expirations, ns, k)
  {}

  lemma IndexedLeased(m: Machine, t: nat, task: Task)
    requires Coherent(m) && Clean(m) && t !in m.state.tasks && task.state.Leased?
    requires task.state.lease.leaseId !in m.active
    ensures IndexTask(m, t, task).Ok? && Coherent(WithTask(m, IndexTask(m, t, task).value, t, task))
  {
    hide Coherent, ReadyOk, CompletedOk, EveryLeaseExpires, NoForeignMatch, ActiveOk, HeldOk, TaskCountsOk,
      GroupCountsOk, Clean, Foreign;
    var tasks, key := m.state.tasks, LeaseKey(t, task.state.lease);
    Parts(m);
    NothingForeign(m, task.ns, key);
    TaskCounted(tasks, m.taskCounts, t, task);
    ReadyKept(tasks, m.ready, t, task);
    CompletedKept(tasks, m.completed, t, task);
    LeaseExpiresPushed(tasks, m.expirations, t, task);
    ForeignPushed(tasks, m.expirations, t, task);
    ActiveAdded(tasks, m.active, t, task);
    HeldAdded(tasks, m.held, t, task);
    Whole(WithTask(m, IndexTask(m, t, task).value, t, task));
  }

  lemma LiveKept(tasks: map<nat, Task>, expirations: map<nat, multiset<Key>>, t: nat, task: Task)
    requires OnlyLive(tasks, expirations) && t !in tasks
    ensures OnlyLive(tasks[t := task], expirations)
  {}

  lemma LivePushed(tasks: map<nat, Task>, expirations: map<nat, multiset<Key>>, t: nat, task: Task)
    requires OnlyLive(tasks, expirations) && t in tasks && tasks[t] == task && task.state.Leased?
    ensures OnlyLive(tasks, Push(expirations, task.ns, LeaseKey(t, task.state.lease)))
  {
    PushCounts(expirations, task.ns, LeaseKey(t, task.state.lease));
  }

  lemma IndexedClean(m: Machine, t: nat, task: Task)
    requires Clean(m) && t !in m.state.tasks && IndexTask(m, t, task).Ok?
    ensures Clean(WithTask(m, IndexTask(m, t, task).value, t, task))
  {
    hide OnlyLive;
    LiveKept(m.state.tasks, m.expirations, t, task);
    if task.state.Leased? {
      LivePushed(m.state.tasks[t := task], m.expirations, t, task);
    }
  }

  /** `m` as if only the Tasks outside `ids` existed. */
  function Seen(m: Machine, ids: set<nat>): Machine {
    m.(state := m.state.(tasks := m.state.tasks - ids))
  }

  lemma IndexStep(m: Machine, t: nat, ids: set<nat>)
    requires ids <= m.state.tasks.Keys && t in ids && Coherent(Seen(m, ids)) && Clean(Seen(m, ids))
    requires IndexTask(m, t, m.state.tasks[t]).Ok?
    ensures
      var m' := IndexTask(m, t, m.state.tasks[t]).value;
      Coherent(Seen(m', ids - {t})) && Clean(Seen(m', ids - {t}))
  {
    hide Coherent, Clean;
    var seen, task := Seen(m, ids), m.state.tasks[t];
    var m' := IndexTask(m, t, task).value;
    assert m.state.tasks - (ids - {t}) == (m.state.tasks - ids)[t := task];
    assert Seen(m', ids - {t}) == WithTask(seen, IndexTask(seen, t, task).value, t, task);
    if task.state.Leased? {
      IndexedLeased(seen, t, task);
    } else if task.state.Queued? {
      IndexedQueued(seen, t, task);
    } else {
      IndexedCompleted(seen, t, task);
    }
    IndexedClean(seen, t, task);
  }

  lemma CoherentUnique(m: Machine)
    requires Coherent(m)
    ensures UniqueLeases(m.state.tasks)
  {}

  lemma DuplicateFound(m: Machine, ids: set<nat>, t: nat)
    requires ids <= m.state.tasks.Keys && t in ids && Coherent(Seen(m, ids))
    requires m.state.tasks[t].state.Leased? && m.state.tasks[t].state.lease.leaseId in m.active
    ensures !UniqueLeases(m.state.tasks)
  {}

  predicate SameBase(a: Machine, b: Machine) {
    a.state == b.state && a.changes == b.changes && a.groupCounts == b.groupCounts
  }

  lemma SeenAll(m: Machine)
    requires Coherent(Seen(m, {})) && Clean(Seen(m, {}))
    ensures Coherent(m) && Clean(m) && UniqueLeases(m.state.tasks)
  {
    assert m.state.tasks - {} == m.state.tasks;
    hide Coherent, Clean, UniqueLeases;
    CoherentUnique(m);
  }

  /** Indexing the remaining Tasks succeeds exactly when no lease id is used twice. */
  lemma {:induction false} IndexTasksIs(m: Machine, ids: set<nat>)
    requires ids <= m.state.tasks.Keys && Coherent(Seen(m, ids)) && Clean(Seen(m, ids))
    ensures IndexTasks(m, ids).Ok? <==> UniqueLeases(m.state.tasks)
    ensures IndexTasks(m, ids).Ok? ==>
              var m' := IndexTasks(m, ids).value; Coherent(m') && Clean(m') && SameBase(m', m)
    decreases |ids|
  {
    hide Coherent, Clean, UniqueLeases, Seen;
    if ids == {} {
      SeenAll(m);
    } else {
      var t := MinId(ids);
      MinIdIn(ids);
      var indexed := IndexTask(m, t, m.state.tasks[t]);
      if indexed.Ok? {
        IndexStep(m, t, ids);
        IndexTasksIs(indexed.value, ids - {t});
      } else {
        DuplicateFound(m, ids, t);
      }
    }
  }

  lemma {:induction false} CountGroupsIs(groups: map<nat, Group>, ids: set<nat>, counts: map<nat, nat>)
    requires ids <= groups.Keys && GroupCountsOk(groups - ids, counts)
    ensures GroupCountsOk(groups, CountGroups(groups, ids, counts))
    decreases |ids|
  {
    hide GroupCountsOk;
    if ids == {} {
      assert groups - {} == groups;
    } else {
      var g := MinId(ids);
      MinIdIn(ids);
      assert groups - (ids - {g}) == (groups - ids)[g := groups[g]];
      GroupCounted(groups - ids, counts, g, groups[g]);
      CountGroupsIs(groups, ids - {g}, counts[groups[g].ns := CountAt(counts, groups[g].ns) + 1]);
    }
  }

  lemma NothingYet(s: State)
    ensures Coherent(Seen(Unindexed(s), s.tasks.Keys)) && Clean(Seen(Unindexed(s), s.tasks.Keys))
  {
    var m := Seen(Unindexed(s), s.tasks.Keys);
    assert m.state.tasks == map[];
    assert GroupCountsOk(m.state.groups, m.groupCounts) by {
      assert s.groups - s.groups.Keys == map[];
      CountGroupsIs(s.groups, s.groups.Keys, map[]);
    }
    hide GroupCountsOk;
  }

  /** A rebuilt machine has exactly the state it was given, coherent indexes and no stale entry. */
  lemma RebuildIs(s: State)
    ensures Rebuild(s).Ok? <==> UniqueLeases(s.tasks)
    ensures Rebuild(s).Ok? ==>
              var m := Rebuild(s).value; m.state == s && m.changes == NoChanges && Coherent(m) && Clean(m)
  {
    NothingYet(s);
    IndexTasksIs(Unindexed(s), s.tasks.Keys);
    hide Coherent, Clean, UniqueLeases;
  }

  // ---- The round trip ----

  lemma SameUnique<V(!new)>(a: map<nat, V>, b: map<nat, V>, records: seq<(nat, V)>)
    requires Same(a, records) && Same(b, records)
    ensures a == b
  {}

  lemma AscendingDistinct<V>(records: seq<(nat, V)>)
    requires Ascending(records)
    ensures Distinct(records)
  {}

  lemma ListedIds<V(!new)>(m: map<nat, V>)
    ensures Ids(Listed(m)) == m.Keys
  {
    ListedIs(m);
    assert forall k | k in m :: (k, m[k]) in Listed(m);
  }

  function Records(groups: map<nat, Group>): map<nat, GroupRecord> {
    map g | g in groups :: RecordOf(groups[g])
  }

  lemma GroupExported(g: Group, namespaces: map<nat, nat>)
    ensures GroupWellFormed(RecordOf(g), namespaces.Keys) <==> GroupSound(g, namespaces)
  {
    ListedIs(g.consumers);
    AscendingDistinct(Listed(g.consumers));
    assert forall w | w in g.consumers :: (w, g.consumers[w]) in Listed(g.consumers);
    hide Listed, Ascending;
  }

  lemma GroupsExported(s: State)
    ensures
      (forall r | r in Listed(Records(s.groups)) :: GroupWellFormed(r.1, s.namespaces.Keys)) <==>
      (forall g | g in s.groups :: GroupSound(s.groups[g], s.namespaces))
  {
    var records := Listed(Records(s.groups));
    ListedIs(Records(s.groups));
    forall g | g in s.groups
      ensures GroupWellFormed(RecordOf(s.groups[g]), s.namespaces.Keys) <==> GroupSound(s.groups[g], s.namespaces)
      ensures (g, RecordOf(s.groups[g])) in records
    {
      GroupExported(s.groups[g], s.namespaces);
      assert g in Records(s.groups);
    }
    hide GroupWellFormed, GroupSound, Listed, RecordOf;
  }

  lemma RecordsHold<V(!new)>(m: map<nat, V>, ok: V -> bool)
    ensures (forall r | r in Listed(m) :: ok(r.1)) <==> (forall k :: k in m ==> ok(m[k]))
    ensures Distinct(Listed(m))
  {
    ListedIs(m);
    AscendingDistinct(Listed(m));
    assert forall k | k in m :: (k, m[k]) in Listed(m);
    hide Listed;
  }

  /** Exported checkpoints are well formed exactly for restorable states (leases aside). */
  lemma ExportWellFormed(s: State)
    ensures WellFormed(Export(s)) <==>
              && (forall n :: n in s.namespaces ==> s.namespaces[n] > 0)
              && (forall t :: t in s.tasks ==> TaskSound(s.tasks[t], s.namespaces))
              && (forall g :: g in s.groups ==> GroupSound(s.groups[g], s.namespaces))
  {
    RecordsHold(s.namespaces, revision => revision > 0);
    RecordsHold(s.tasks, (t: Task) => TaskSound(t, s.namespaces));
    RecordsHold(Records(s.groups), r => true);
    ListedIds(s.namespaces);
    GroupsExported(s);
    assert Export(s).groups == Listed(Records(s.groups));
    hide GroupWellFormed, GroupSound, Listed, RecordOf, Distinct, Ids, Records;
  }

  lemma GroupRecovered(a: Group, b: Group)
    requires GroupIs(a, RecordOf(b))
    ensures a == b
  {
    ListedIs(b.consumers);
    SameUnique(a.consumers, b.consumers, Listed(b.consumers));
  }

  lemma StateRecovered(s: State, s': State)
    requires Represents(s', Export(s))
    ensures s' == s
  {
    ListedIs(s.namespaces);
    ListedIs(s.tasks);
    SameUnique(s'.namespaces, s.namespaces, Listed(s.namespaces));
    SameUnique(s'.tasks, s.tasks, Listed(s.tasks));
    ListedIs(Records(s.groups));
    ListedIds(Records(s.groups));
    assert Export(s).groups == Listed(Records(s.groups));
    forall g | g in s.groups ensures s'.groups[g] == s.groups[g] {
      assert g in Records(s.groups) && (g, RecordOf(s.groups[g])) in Listed(Records(s.groups));
      GroupRecovered(s'.groups[g], s.groups[g]);
    }
  }

  /** Exporting a state and restoring it gives back that state with coherent, clean indexes, and
      the restore succeeds exactly for restorable states. */
  lemma RoundTrip(s: State)
    ensures FromCheckpoint(Export(s)).Ok? <==> Restorable(s)
    ensures FromCheckpoint(Export(s)).Ok? ==>
              var m := FromCheckpoint(Export(s)).value;
              m.state == s && m.changes == NoChanges && Coherent(m) && Clean(m)
    ensures FromCheckpoint(Export(s)).Ok? ==> FromCheckpoint(Export(s)) == Rebuild(s)
  {
    RestoreStateIs(Export(s));
    ExportWellFormed(s);
    if WellFormed(Export(s)) {
      StateRecovered(s, RestoreState(Export(s)).value);
      RebuildIs(s);
    }
    hide WellFormed, Represents, Coherent, Clean, UniqueLeases, Export, RestoreState, Rebuild, TaskSound, GroupSound;
  }

  /** A restore that succeeds yields a restorable state with coherent indexes, whatever the checkpoint. */
  lemma RestoredIsCoherent(cp: Checkpoint)
    ensures FromCheckpoint(cp).Ok? ==>
              var m := FromCheckpoint(cp).value;
              Coherent(m) && Clean(m) && m.changes == NoChanges &&
              Represents(m.state, cp) && UniqueLeases(m.state.tasks)
    ensures FromCheckpoint(cp).Ok? <==>
              WellFormed(cp) && RestoreState(cp).Ok? && UniqueLeases(RestoreState(cp).value.tasks)
  {
    RestoreStateIs(cp);
    if WellFormed(cp) {
      RebuildIs(RestoreState(cp).value);
    }
    hide WellFormed, Represents, Coherent, Clean, UniqueLeases, RestoreState, Rebuild;
  }
}
