/** Logical checkpoints: exporting the authoritative state in key order, refusing malformed
    checkpoints, and rebuilding every derived index from a well-formed one. */
module Checkpoints {
  import opened Order
  import opened Tasks
  import opened Groups
  import opened BrokerState
  import opened BrokerMachine

  /** A disk operation succeeds, or fails with no effect, or fails although it took effect. */
  datatype Io = Done | FailedBefore | FailedAfter

  datatype GroupRecord = GroupRecord(ns: nat, generation: nat, revision: nat, members: seq<(nat, Consumer)>)

  datatype Checkpoint = Checkpoint(
    term: nat, revision: nat, namespaces: seq<(nat, nat)>, tasks: seq<(nat, Task)>, groups: seq<(nat, GroupRecord)>)

  datatype Entity = NamespaceEntity | TaskEntity | GroupEntity | MemberEntity

  datatype CheckpointError =
    | ZeroEntityRevision(entity: Entity) | UnknownNamespace(entity: Entity, ns: nat)
    | DuplicateNamespace(id: nat) | DuplicateTask(id: nat) | DuplicateGroup(id: nat) | DuplicateMember(id: nat)
    | DuplicateActiveLease(lease: nat)

  // ---- Export ----

  /** The entries of a map in ascending key order. */
  function Listed<V>(m: map<nat, V>): seq<(nat, V)>
    decreases |m|
  {
    if m.Keys == {} then []
    else
      var k := MinId(m.Keys);
      assert (m - {k}).Keys == m.Keys - {k};
      [(k, m[k])] + Listed(m - {k})
  }

  predicate Ascending<V>(records: seq<(nat, V)>) {
    forall i, j | 0 <= i < j < |records| :: records[i].0 < records[j].0
  }

  /** The records are exactly the entries of the map. */
  ghost predicate Same<V(!new)>(m: map<nat, V>, records: seq<(nat, V)>) {
    && (forall r | r in records :: r.0 in m && m[r.0] == r.1)
    && (forall k | k in m :: (k, m[k]) in records)
  }

  lemma Prepended<V(!new)>(m: map<nat, V>, k: nat, rest: seq<(nat, V)>)
    requires IsLeastId(k, m.Keys) && Ascending(rest) && Same(m - {k}, rest)
    ensures Ascending([(k, m[k])] + rest) && Same(m, [(k, m[k])] + rest)
  {
    var records := [(k, m[k])] + rest;
    assert forall r | r in records :: r == (k, m[k]) || r in rest;
    assert forall j | j in m :: j == k || (j in m - {k} && (j, m[j]) in rest);
    forall i, j | 0 <= i < j < |records| ensures records[i].0 < records[j].0 {
      assert records[j] in rest;
    }
  }

  lemma {:induction false} ListedIs<V(!new)>(m: map<nat, V>)
    ensures Ascending(Listed(m)) && Same(m, Listed(m))
    decreases |m|
  {
    if m.Keys != {} {
      var k := MinId(m.Keys);
      assert (m - {k}).Keys == m.Keys - {k};
      ListedIs(m - {k});
      Prepended(m, k, Listed(m - {k}));
    }
    hide Ascending;
  }

  function RecordOf(g: Group): GroupRecord {
    GroupRecord(g.ns, g.generation, g.revision, Listed(g.consumers))
  }

  function Export(s: State): Checkpoint {
    Checkpoint(s.term, s.revision, Listed(s.namespaces), Listed(s.tasks),
               Listed(map g | g in s.groups :: RecordOf(s.groups[g])))
  }

  // ---- Restore ----

  /** Insert records one by one: a record that does not parse, or whose id is taken, ends the restore. */
  function Load<R, V, E>(records: seq<(nat, R)>, into: map<nat, V>, parse: R -> Result<V, E>, taken: nat -> E)
    : Result<map<nat, V>, E>
  {
    if records == [] then Ok(into)
    else
      var (id, record) := records[0];
      match parse(record)
      case Err(e) => Err(e)
      case Ok(v) => if id in into then Err(taken(id)) else Load(records[1..], into[id := v], parse, taken)
  }

  function ParseNamespace(revision: nat): Result<nat, CheckpointError> {
    if revision == 0 then Err(ZeroEntityRevision(NamespaceEntity)) else Ok(revision)
  }

  function ParseMember(c: Consumer): Result<Consumer, CheckpointError> {
    Ok(c)
  }

  function ParseGroup(namespaces: map<nat, nat>, g: GroupRecord): Result<Group, CheckpointError> {
    if g.revision == 0 then Err(ZeroEntityRevision(GroupEntity))
    else if exists i | 0 <= i < |g.members| :: g.members[i].1.revision == 0 then Err(ZeroEntityRevision(MemberEntity))
    else if g.ns !in namespaces then Err(UnknownNamespace(GroupEntity, g.ns))
    else
      match Load(g.members, map[], ParseMember, (id: nat) => DuplicateMember(id))
      case Err(e) => Err(e)
      case Ok(consumers) => Ok(Group(g.ns, g.generation, g.revision, consumers))
  }

  function ParseTask(namespaces: map<nat, nat>, t: Task): Result<Task, CheckpointError> {
    if t.revision == 0 then Err(ZeroEntityRevision(TaskEntity))
    else if t.ns !in namespaces then Err(UnknownNamespace(TaskEntity, t.ns))
    else Ok(t)
  }

  function RestoreState(cp: Checkpoint): Result<State, CheckpointError> {
    match Load(cp.namespaces, map[], ParseNamespace, (id: nat) => DuplicateNamespace(id))
    case Err(e) => Err(e)
    case Ok(namespaces) =>
      match Load(cp.groups, map[], g => ParseGroup(namespaces, g), (id: nat) => DuplicateGroup(id))
      case Err(e) => Err(e)
      case Ok(groups) =>
        match Load(cp.tasks, map[], t => ParseTask(namespaces, t), (id: nat) => DuplicateTask(id))
        case Err(e) => Err(e)
        case Ok(tasks) => Ok(State(cp.term, cp.revision, namespaces, tasks, groups))
  }

  function CountGroups(groups: map<nat, Group>, ids: set<nat>, counts: map<nat, nat>): map<nat, nat>
    decreases |ids|
  {
    if ids == {} then counts
    else
      var g := MinId(ids);
      CountGroups(groups, ids - {g},
                  if g in groups then counts[groups[g].ns := CountAt(counts, groups[g].ns) + 1] else counts)
  }

  /** Index one Task. */
  function IndexTask(m: Machine, t: nat, task: Task): Result<Machine, CheckpointError> {
    var counted := m.(taskCounts := m.taskCounts[task.ns := CountAt(m.taskCounts, task.ns) + 1]);
    match task.state
    case Queued(_) => Ok(counted.(ready := Push(m.ready, task.ns, ReadyKey(t, task))))
    case Leased(l) =>
      if l.leaseId in m.active then Err(DuplicateActiveLease(l.leaseId))
      else Ok(counted.(active := m.active[l.leaseId := t],
                       held := AddHeld(m.held, (l.group, l.owner), t),
                       expirations := Push(m.expirations, task.ns, LeaseKey(t, l))))
    case Completed(d) => Ok(counted.(completed := m.completed + multiset{Key(d.completedAt, t, 0)}))
  }

  function IndexTasks(m: Machine, ids: set<nat>): Result<Machine, CheckpointError>
    decreases |ids|
  {
    if ids == {} then Ok(m)
    else
      var t := MinId(ids);
      if t !in m.state.tasks then IndexTasks(m, ids - {t})
      else
        match IndexTask(m, t, m.state.tasks[t])
        case Err(e) => Err(e)
        case Ok(m') => IndexTasks(m', ids - {t})
  }

  function Unindexed(s: State): Machine {
    EmptyMachine.(state := s, groupCounts := CountGroups(s.groups, s.groups.Keys, map[]))
  }

  function Rebuild(s: State): Result<Machine, CheckpointError> {
    IndexTasks(Unindexed(s), s.tasks.Keys)
  }

  function FromCheckpoint(cp: Checkpoint): Result<Machine, CheckpointError> {
    match RestoreState(cp)
    case Err(e) => Err(e)
    case Ok(s) => Rebuild(s)
  }

  // ---- Which checkpoints load, and what they load to ----

  predicate Distinct<R>(records: seq<(nat, R)>) {
    forall i, j | 0 <= i < j < |records| :: records[i].0 != records[j].0
  }

  ghost function Ids<R(!new)>(records: seq<(nat, R)>): set<nat> {
    set r | r in records :: r.0
  }

  ghost predicate Parses<R(!new), V(!new), E(!new)>(records: seq<(nat, R)>, parse: R -> Result<V, E>) {
    forall r | r in records :: parse(r.1).Ok?
  }

  /** `m` holds exactly the parsed records, on top of what was there. */
  ghost predicate Holds<R(!new), V(!new), E(!new)>(
    m: map<nat, V>, records: seq<(nat, R)>, into: map<nat, V>, parse: R -> Result<V, E>)
  {
    && m.Keys == into.Keys + Ids(records)
    && (forall r | r in records :: r.0 in m && parse(r.1) == Ok(m[r.0]))
    && (forall k | k in into :: k in m && m[k] == into[k])
  }

  /** A restore succeeds exactly when every record parses and no id appears twice. */
  lemma {:induction false} LoadIs<R(!new), V(!new), E(!new)>(
    records: seq<(nat, R)>, into: map<nat, V>, parse: R -> Result<V, E>, taken: nat -> E)
    ensures Load(records, into, parse, taken).Ok? <==>
              Parses(records, parse) && Distinct(records) && Ids(records) !! into.Keys
    ensures Load(records, into, parse, taken).Ok? ==>
              Holds(Load(records, into, parse, taken).value, records, into, parse)
  {
    if records != [] {
      var (id, record) := records[0];
      var rest := records[1..];
      assert records == [records[0]] + rest;
      assert Ids(records) == {id} + Ids(rest);
      assert forall r | r in rest :: r in records;
      assert Distinct(records) <==> Distinct(rest) && id !in Ids(rest) by { DistinctSplit(records); }
      if parse(record).Ok? && id !in into {
        LoadIs(rest, into[id := parse(record).value], parse, taken);
      } else {
        assert records[0] in records;
      }
    }
  }

  lemma DistinctSplit<R(!new)>(records: seq<(nat, R)>)
    requires records != []
    ensures Distinct(records) <==> Distinct(records[1..]) && records[0].0 !in Ids(records[1..])
  {}

  /** What a restore accepts: positive revisions, known namespaces, no id twice. */
  ghost predicate WellFormed(cp: Checkpoint) {
    && Distinct(cp.namespaces) && Distinct(cp.groups) && Distinct(cp.tasks)
    && (forall r | r in cp.namespaces :: r.1 > 0)
    && (forall r | r in cp.groups :: GroupWellFormed(r.1, Ids(cp.namespaces)))
    && (forall r | r in cp.tasks :: r.1.revision > 0 && r.1.ns in Ids(cp.namespaces))
  }

  ghost predicate GroupWellFormed(g: GroupRecord, namespaces: set<nat>) {
    g.revision > 0 && g.ns in namespaces && Distinct(g.members) && forall r | r in g.members :: r.1.revision > 0
  }

  /** The state says what the checkpoint says, record by record, and nothing more. */
  ghost predicate Represents(s: State, cp: Checkpoint) {
    && s.term == cp.term && s.revision == cp.revision
    && Same(s.namespaces, cp.namespaces) && Same(s.tasks, cp.tasks)
    && s.groups.Keys == Ids(cp.groups) && forall r | r in cp.groups :: GroupIs(s.groups[r.0], r.1)
  }

  ghost predicate GroupIs(g: Group, r: GroupRecord) {
    g.ns == r.ns && g.generation == r.generation && g.revision == r.revision && Same(g.consumers, r.members)
  }

  /** Records that parse to themselves load to exactly themselves. */
  lemma HoldsSame<V(!new), E(!new)>(m: map<nat, V>, records: seq<(nat, V)>, parse: V -> Result<V, E>)
    requires Holds(m, records, map[], parse) && forall r | r in records :: parse(r.1) == Ok(r.1)
    ensures Same(m, records)
  {}

  lemma ParseGroupIs(namespaces: map<nat, nat>, g: GroupRecord)
    ensures ParseGroup(namespaces, g).Ok? <==> GroupWellFormed(g, namespaces.Keys)
    ensures ParseGroup(namespaces, g).Ok? ==> GroupIs(ParseGroup(namespaces, g).value, g)
  {
    LoadIs(g.members, map[], ParseMember, (id: nat) => DuplicateMember(id));
    assert (exists i | 0 <= i < |g.members| :: g.members[i].1.revision == 0) <==>
           !(forall r | r in g.members :: r.1.revision > 0);
    var loaded := Load(g.members, map[], ParseMember, (id: nat) => DuplicateMember(id));
    if loaded.Ok? {
      HoldsSame(loaded.value, g.members, ParseMember);
    }
  }

  /** A checkpoint is accepted exactly when it is well formed, and then it is represented faithfully. */
  lemma RestoreStateIs(cp: Checkpoint)
    ensures RestoreState(cp).Ok? <==> WellFormed(cp)
    ensures RestoreState(cp).Ok? ==> Represents(RestoreState(cp).value, cp)
  {
    LoadIs(cp.namespaces, map[], ParseNamespace, (id: nat) => DuplicateNamespace(id));
    var namespaces := Load(cp.namespaces, map[], ParseNamespace, (id: nat) => DuplicateNamespace(id));
    if namespaces.Ok? {
      HoldsSame(namespaces.value, cp.namespaces, ParseNamespace);
      RestoreGroupsIs(cp, namespaces.value);
      RestoreTasksIs(cp, namespaces.value);
    }
  }

  lemma RestoreGroupsIs(cp: Checkpoint, namespaces: map<nat, nat>)
    ensures
      var groups := Load(cp.groups, map[], g => ParseGroup(namespaces, g), (id: nat) => DuplicateGroup(id));
      && (groups.Ok? <==> Distinct(cp.groups) && forall r | r in cp.groups :: GroupWellFormed(r.1, namespaces.Keys))
      && (groups.Ok? ==>
              groups.value.Keys == Ids(cp.groups) && forall r | r in cp.groups :: GroupIs(groups.value[r.0], r.1))
  {
    var parse := g => ParseGroup(namespaces, g);
    LoadIs(cp.groups, map[], parse, (id: nat) => DuplicateGroup(id));
    forall g: GroupRecord
      ensures parse(g).Ok? <==> GroupWellFormed(g, namespaces.Keys)
      ensures parse(g).Ok? ==> GroupIs(parse(g).value, g)
    {
      ParseGroupIs(namespaces, g);
    }
    hide GroupWellFormed, GroupIs, ParseGroup;
  }

  lemma RestoreTasksIs(cp: Checkpoint, namespaces: map<nat, nat>)
    ensures
      var tasks := Load(cp.tasks, map[], t => ParseTask(namespaces, t), (id: nat) => DuplicateTask(id));
      && (tasks.Ok? <==> Distinct(cp.tasks) && forall r | r in cp.tasks :: r.1.revision > 0 && r.1.ns in namespaces)
      && (tasks.Ok? ==> Same(tasks.value, cp.tasks))
  {
    var parse := t => ParseTask(namespaces, t);
    LoadIs(cp.tasks, map[], parse, (id: nat) => DuplicateTask(id));
    var tasks := Load(cp.tasks, map[], parse, (id: nat) => DuplicateTask(id));
    if tasks.Ok? {
      HoldsSame(tasks.value, cp.tasks, parse);
    }
  }
}
