/** The Raft log store: what the table holds between calls, and which indexes a range selects. */
module LogStore {
  import opened Order

  datatype LogId = LogId(term: nat, index: nat)

  datatype Stored = Stored(id: LogId, payload: nat)

  datatype LogState = LogState(lastPurged: Option<LogId>, last: Option<LogId>)

  datatype LogError = IndexHole | KeyMismatch(key: nat, index: nat) | RangeOverflow

  // ---- Ranges ----

  datatype Bound = Unbounded | Included(value: nat) | Excluded(value: nat)

  predicate AboveStart(start: Bound, i: nat) {
    match start
    case Unbounded => true
    case Included(v) => v <= i
    case Excluded(v) => v < i
  }

  predicate BelowEnd(end: Bound, i: nat) {
    match end
    case Unbounded => true
    case Included(v) => i <= v
    case Excluded(v) => i < v
  }

  predicate BoundFits(b: Bound) {
    !b.Unbounded? ==> b.value <= U64_MAX
  }

  /** A half-open range, or nothing to read, or an error. */
  function NormalizeRange(start: Bound, end: Bound): Result<Option<(nat, Option<nat>)>, LogError> {
    if start.Excluded? && start.value >= U64_MAX then Err(RangeOverflow)
    else
      var first := match start { case Unbounded => 0 case Included(v) => v case Excluded(v) => v + 1 };
      var stop := match end {
        case Unbounded => None
        case Excluded(v) => Some(v)
        case Included(v) => if v >= U64_MAX then None else Some(v + 1)
      };
      if stop.Some? && first >= stop.value then Ok(None) else Ok(Some((first, stop)))
  }

  /** The index is selected by a normalized range. */
  predicate Selects(r: Option<(nat, Option<nat>)>, i: nat) {
    r.Some? && r.value.0 <= i && (r.value.1.Some? ==> i < r.value.1.value)
  }

  /** Normalizing selects exactly the 64-bit indexes within the bounds, up to and including the largest
      one; it fails exactly for a start that excludes the largest index, above which there is none. */
  lemma NormalizeIsExact(start: Bound, end: Bound)
    requires BoundFits(start) && BoundFits(end)
    ensures NormalizeRange(start, end).Err? <==> start == Excluded(U64_MAX)
    ensures NormalizeRange(start, end).Ok? ==>
              forall i: nat | i <= U64_MAX ::
                Selects(NormalizeRange(start, end).value, i) <==> AboveStart(start, i) && BelowEnd(end, i)
    ensures NormalizeRange(start, end).Err? ==> forall i: nat | i <= U64_MAX :: !AboveStart(start, i)
    ensures NormalizeRange(start, end) == Ok(None) ==>
              forall i: nat | i <= U64_MAX :: !(AboveStart(start, i) && BelowEnd(end, i))
  {}

  // ---- The table ----

  predicate Consecutive(batch: seq<Stored>) {
    forall i | 0 <= i < |batch| - 1 :: batch[i + 1].id.index == batch[i].id.index + 1
  }

  /** The check that the code makes: addition stops at the largest index. */
  function SaturatingNext(i: nat): nat {
    if i >= U64_MAX then U64_MAX else i + 1
  }

  predicate NoHole(batch: seq<Stored>) {
    forall i | 0 <= i < |batch| - 1 :: batch[i + 1].id.index == SaturatingNext(batch[i].id.index)
  }

  /** The check is exact for batches of distinct indexes; only a repeated largest index slips through. */
  lemma HoleCheckIsExact(batch: seq<Stored>)
    requires forall i | 0 <= i < |batch| :: batch[i].id.index <= U64_MAX
    ensures Consecutive(batch) <==>
              NoHole(batch) &&
              forall i | 0 <= i < |batch| - 1 :: !(batch[i].id.index == U64_MAX && batch[i + 1].id.index == U64_MAX)
  {}

  const LARGEST := LogId(1, U64_MAX)

  /** Two entries under the largest index pass the check, are not consecutive, and the second replaces
      the first. */
  lemma RepeatedLargestPasses()
    ensures
      var batch := [Stored(LARGEST, 1), Stored(LARGEST, 2)];
      NoHole(batch) && !Consecutive(batch) && Inserted(map[], batch) == map[U64_MAX := Stored(LARGEST, 2)]
  {
    var batch := [Stored(LARGEST, 1), Stored(LARGEST, 2)];
    assert batch[0 + 1].id.index != batch[0].id.index + 1;
    var first := [Stored(LARGEST, 1)];
    assert batch[..1] == first && first[..0] == [];
    assert Inserted(map[], first) == map[U64_MAX := Stored(LARGEST, 1)];
  }

  /** The first index above what was purged. */
  function Base(purged: Option<LogId>): nat {
    if purged.Some? then purged.value.index + 1 else 0
  }

  /** One contiguous run from just above the last purged index up to `end`, each under its own index. */
  ghost predicate Contiguous(table: map<nat, Stored>, purged: Option<LogId>, end: nat) {
    && Base(purged) <= end
    && (forall i: nat :: i in table <==> Base(purged) <= i < end)
    && (forall i :: i in table ==> table[i].id.index == i)
  }

  lemma EndIsLast(table: map<nat, Stored>, purged: Option<LogId>, end: nat)
    requires Contiguous(table, purged, end)
    ensures table.Keys == {} <==> end == Base(purged)
    ensures table.Keys != {} ==> end > 0 && end - 1 in table && forall i | i in table :: i <= end - 1
  {
    if end > Base(purged) {
      assert end - 1 in table;
    }
  }

  /** The table after the entries of a batch were inserted one by one. */
  function Inserted(table: map<nat, Stored>, batch: seq<Stored>): map<nat, Stored> {
    if batch == [] then table else
      Inserted(table, batch[..|batch| - 1])[batch[|batch| - 1].id.index := batch[|batch| - 1]]
  }

  /** OpenRaft appends at the end of the log, with consecutive indexes. */
  predicate AppendsAt(batch: seq<Stored>, end: nat) {
    Consecutive(batch) && (batch != [] ==> batch[0].id.index == end)
  }

  lemma {:induction false} InsertedContiguous(
    table: map<nat, Stored>, purged: Option<LogId>, end: nat, batch: seq<Stored>)
    requires Contiguous(table, purged, end) && AppendsAt(batch, end)
    ensures Contiguous(Inserted(table, batch), purged, end + |batch|)
    ensures forall i | i in table :: i in Inserted(table, batch) && Inserted(table, batch)[i] == table[i]
    ensures forall i | 0 <= i < |batch| ::
              end + i in Inserted(table, batch) && Inserted(table, batch)[end + i] == batch[i]
  {
    if batch != [] {
      var front := batch[..|batch| - 1];
      InsertedContiguous(table, purged, end, front);
      ConsecutiveIndexes(batch);
      assert Inserted(table, batch) == Inserted(table, front)[end + |front| := batch[|front|]];
      assert forall i | 0 <= i < |front| :: batch[i] == front[i];
    }
  }

  class RaftLogStorage {
    var table: map<nat, Stored>
    var purged: Option<LogId>

    /** Between calls the log is one run; `end` is the index the next entry will get. */
    ghost predicate Valid(end: nat)
      reads this
    {
      Contiguous(table, purged, end)
    }

    constructor ()
      ensures Valid(0) && purged == None
    {
      table, purged := map[], None;
    }

    /** Append a batch: all of it, or nothing if its indexes have a hole. */
    method Append(batch: seq<Stored>, ghost end: nat) returns (r: Result<(), LogError>)
      modifies this`table
      ensures r == if NoHole(batch) then Ok(()) else Err(IndexHole)
      ensures table == if r.Ok? then Inserted(old(table), batch) else old(table)
      ensures r.Ok? && old(Valid(end)) && AppendsAt(batch, end) ==> Valid(end + |batch|)
    {
      var i := 0;
      while i + 1 < |batch|
        invariant forall j | 0 <= j < i && j + 1 < |batch| :: batch[j + 1].id.index == SaturatingNext(batch[j].id.index)
      {
        if batch[i + 1].id.index != SaturatingNext(batch[i].id.index) {
          return Err(IndexHole);
        }
        i := i + 1;
      }
      i := 0;
      assert batch[..0] == [];
      while i < |batch|
        invariant 0 <= i <= |batch| && table == Inserted(old(table), batch[..i])
      {
        assert batch[..i + 1][..i] == batch[..i];
        table := table[batch[i].id.index := batch[i]];
        i := i + 1;
      }
      assert batch[..|batch|] == batch;
      if Contiguous(old(table), purged, end) && AppendsAt(batch, end) {
        InsertedContiguous(old(table), purged, end, batch);
      }
      r := Ok(());
    }

    /** Forget everything from an index on. */
    method Truncate(index: nat, ghost end: nat)
      modifies this`table
      ensures table == map i | i in old(table) && i < index :: old(table)[i]
      ensures old(Valid(end)) && Base(purged) <= index <= end ==> Valid(index)
    {
      table := map i | i in table && i < index :: table[i];
    }

    /** Forget everything through an index, possibly beyond the end, and remember it. */
    method Purge(id: LogId, ghost end: nat)
      modifies this
      ensures purged == Some(id) && table == map i | i in old(table) && i > id.index :: old(table)[i]
      ensures old(Valid(end)) && Base(old(purged)) <= id.index + 1 ==>
                Valid(if end <= id.index then id.index + 1 else end)
    {
      table := map i | i in table && i > id.index :: table[i];
      purged := Some(id);
    }

    /** The log state names the last stored entry, or else the last purged one; for a log that is one
        run that is its exact end. */
    method GetLogState(ghost end: nat) returns (r: Result<LogState, LogError>)
      ensures r.Err? <==> table.Keys != {} && table[MaxId(table.Keys)].id.index != MaxId(table.Keys)
      ensures r.Ok? ==> r.value.lastPurged == purged
      ensures r.Ok? ==> r.value.last == if table.Keys == {} then purged else Some(table[MaxId(table.Keys)].id)
      ensures Valid(end) ==> r.Ok?
      ensures Valid(end) && end > Base(purged) ==>
                end - 1 in table && r.value.last == Some(table[end - 1].id) && table[end - 1].id.index == end - 1
      ensures Valid(end) && end == Base(purged) ==> r.value.last == purged
    {
      if Contiguous(table, purged, end) {
        EndIsLast(table, purged, end);
      }
      if table.Keys == {} {
        return Ok(LogState(purged, purged));
      }
      var last := MaxId(table.Keys);
      var stored := table[last];
      if stored.id.index != last {
        return Err(KeyMismatch(last, stored.id.index));
      }
      r := Ok(LogState(purged, Some(stored.id)));
    }

    /** Read a range in index order: exactly the stored entries within the bounds, or the first key in
        the range whose entry has another index. */
    method ReadRange(start: Bound, stop: Bound) returns (r: Result<seq<Stored>, LogError>)
      requires BoundFits(start) && BoundFits(stop) && forall i | i in table :: i <= U64_MAX
      ensures r == Err(RangeOverflow) <==> start == Excluded(U64_MAX)
      ensures r.Err? ==> start == Excluded(U64_MAX) || MisplacedKeys(table, start, stop) != {}
      ensures start != Excluded(U64_MAX) && MisplacedKeys(table, start, stop) != {} ==>
                var k := MinId(MisplacedKeys(table, start, stop));
                k in table && r == Err(KeyMismatch(k, table[k].id.index))
      ensures r.Ok? ==> forall i, j | 0 <= i < j < |r.value| :: r.value[i].id.index < r.value[j].id.index
      ensures r.Ok? ==>
                forall i | 0 <= i < |r.value| ::
                  r.value[i].id.index in table && table[r.value[i].id.index] == r.value[i]
      ensures r.Ok? ==> forall k | k in table && AboveStart(start, k) && BelowEnd(stop, k) :: table[k] in r.value
      ensures r.Ok? ==> forall e | e in r.value :: AboveStart(start, e.id.index) && BelowEnd(stop, e.id.index)
    {
      NormalizeIsExact(start, stop);
      var range := NormalizeRange(start, stop);
      if range.Err? {
        return Err(range.error);
      }
      if range.value.None? {
        return Ok([]);
      }
      var keys := set i | i in table && Selects(range.value, i);
      assert MisplacedKeys(table, start, stop) == Misplaced(table, keys);
      r := ReadKeys(keys);
    }

    /** Decode the entries under some keys in order, up to the first that does not fit its key. */
    method ReadKeys(keys: set<nat>) returns (r: Result<seq<Stored>, LogError>)
      requires keys <= table.Keys
      ensures r.Err? <==> Misplaced(table, keys) != {}
      ensures r.Err? ==>
                var k := MinId(Misplaced(table, keys));
                k in table && r == Err(KeyMismatch(k, table[k].id.index))
      ensures r.Ok? ==> forall i, j | 0 <= i < j < |r.value| :: r.value[i].id.index < r.value[j].id.index
      ensures r.Ok? ==>
                forall i | 0 <= i < |r.value| :: r.value[i].id.index in keys && table[r.value[i].id.index] == r.value[i]
      ensures r.Ok? ==> forall k | k in keys :: table[k] in r.value
    {
      var output: seq<Stored> := [];
      var waiting := keys;
      while waiting != {}
        invariant waiting <= keys
        invariant forall k | k in keys - waiting :: table[k].id.index == k && table[k] in output
        invariant forall i | 0 <= i < |output| ::
                    output[i].id.index in keys - waiting && table[output[i].id.index] == output[i]
        invariant forall i, j | 0 <= i < j < |output| :: output[i].id.index < output[j].id.index
        invariant forall k, j | k in keys - waiting && j in waiting :: k < j
        decreases |waiting|
      {
        var k := MinId(waiting);
        MinIdIn(waiting);
        if table[k].id.index != k {
          FirstMisplaced(Misplaced(table, keys), k);
          return Err(KeyMismatch(k, table[k].id.index));
        }
        output := output + [table[k]];
        waiting := waiting - {k};
      }
      r := Ok(output);
    }
  }

  function Misplaced(table: map<nat, Stored>, keys: set<nat>): set<nat> {
    set k | k in keys && k in table && table[k].id.index != k
  }

  /** The keys of a range whose entries carry another index. */
  function MisplacedKeys(table: map<nat, Stored>, start: Bound, stop: Bound): set<nat> {
    set k | k in table && AboveStart(start, k) && BelowEnd(stop, k) && table[k].id.index != k
  }

  lemma FirstMisplaced(keys: set<nat>, k: nat)
    requires k in keys && forall j | j in keys :: k <= j
    ensures MinId(keys) == k
  {}

  lemma {:induction false} ConsecutiveIndexes(batch: seq<Stored>)
    requires Consecutive(batch)
    ensures forall i | 0 <= i < |batch| :: batch[i].id.index == batch[0].id.index + i
  {
    if |batch| > 1 {
      var front := batch[..|batch| - 1];
      ConsecutiveIndexes(front);
      assert batch[|batch| - 1].id.index == batch[|batch| - 2].id.index + 1;
      assert forall i | 0 <= i < |front| :: batch[i] == front[i];
    }
  }

  function MaxId(s: set<nat>): (k: nat)
    requires s != {}
    ensures k in s && forall j | j in s :: j <= k
  {
    MaxIdExists(s);
    var k :| k in s && forall j | j in s :: j <= k;
    k
  }

  lemma {:induction false} MaxIdExists(s: set<nat>)
    requires s != {}
    ensures exists k :: k in s && forall j | j in s :: j <= k
  {
    var x :| x in s;
    if s == {x} {
      assert x in s && forall j | j in s :: j <= x;
    } else {
      MaxIdExists(s - {x});
      var y :| y in s - {x} && forall j | j in s - {x} :: j <= y;
      var k := if x <= y then y else x;
      forall j | j in s ensures j <= k {
        assert j == x || j in s - {x};
      }
      assert k in s;
    }
  }
}
