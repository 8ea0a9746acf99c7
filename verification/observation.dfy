/** Publication order: one updater stores a committed state field by field while readers load the
    fields one by one.  Cells hold the number of the version they were stored from. */
module Observation {
  import opened Order

  /** One published state: what is shown of it, and the log index it was applied at, if any. */
  datatype Version = Version(directory: nat, term: nat, revision: nat, applied: Option<nat>)

  /** Where the updater is within one publication. */
  datatype Updater = Idle | StoreTerm | StoreRevision | ClearFlag | StoreIndex | SetFlag

  /** A reader first asks for the applied index, in two loads, then for the rest in any order. */
  datatype Reader =
    | Fresh | SawFlag | NoIndex
    | Got(index: Option<nat>, directory: Option<nat>, term: Option<nat>, revision: Option<nat>)

  /** `index` is the version whose applied index is stored; `None` is the initial placeholder. */
  datatype Shared = Shared(
    history: seq<Version>, updater: Updater,
    directory: nat, term: nat, revision: nat, flag: bool, index: Option<nat>,
    readers: map<nat, Reader>)

  datatype Move =
    | Publish(version: Version) | Advance | Start(reader: nat) | LoadFlag(reader: nat) | LoadIndex(reader: nat)
    | LoadDirectory(reader: nat) | LoadTerm(reader: nat) | LoadRevision(reader: nat)

  function Latest(s: Shared): nat
    requires s.history != []
  {
    |s.history| - 1
  }

  /** The state right after construction. */
  function New(first: Version): Shared {
    Shared([first], Idle, 0, 0, 0, first.applied.Some?, if first.applied.Some? then Some(0) else None, map[])
  }

  function AdvanceUpdater(s: Shared): Shared
    requires s.history != []
  {
    var v := Latest(s);
    match s.updater
    case Idle => s
    case StoreTerm => s.(term := v, updater := StoreRevision)
    case StoreRevision => s.(revision := v, updater := ClearFlag)
    case ClearFlag => s.(flag := false, updater := if s.history[v].applied.Some? then StoreIndex else Idle)
    case StoreIndex => s.(index := Some(v), updater := SetFlag)
    case SetFlag => s.(flag := true, updater := Idle)
  }

  function Set(s: Shared, reader: nat, state: Reader): Shared {
    s.(readers := s.readers[reader := state])
  }

  /** One atomic step of the updater or of one reader. */
  function Take(s: Shared, move: Move): (t: Shared)
    requires s.history != []
    ensures t.history != []
  {
    match move
    case Publish(version) =>
      // The directory is the first thing a publication stores.
      if s.updater.Idle? then s.(history := s.history + [version], directory := |s.history|, updater := StoreTerm)
      else s
    case Advance => AdvanceUpdater(s)
    case Start(r) => Set(s, r, Fresh)
    case LoadFlag(r) =>
      if r in s.readers && s.readers[r].Fresh? then Set(s, r, if s.flag then SawFlag else NoIndex) else s
    case LoadIndex(r) =>
      if r in s.readers && s.readers[r].SawFlag? then Set(s, r, Got(s.index, None, None, None)) else s
    case LoadDirectory(r) =>
      if r in s.readers && s.readers[r].Got? then Set(s, r, s.readers[r].(directory := Some(s.directory))) else s
    case LoadTerm(r) =>
      if r in s.readers && s.readers[r].Got? then Set(s, r, s.readers[r].(term := Some(s.term))) else s
    case LoadRevision(r) =>
      if r in s.readers && s.readers[r].Got? then Set(s, r, s.readers[r].(revision := Some(s.revision))) else s
  }

  /** How far each cell has got, given where the updater is. */
  predicate CellsFit(s: Shared) {
    && s.history != [] && s.directory == Latest(s)
    && (if s.updater.StoreTerm? then s.term + 1 == Latest(s) else s.term == Latest(s))
    && (if s.updater.StoreTerm? || s.updater.StoreRevision? then s.revision + 1 == Latest(s)
        else s.revision == Latest(s))
    && (s.updater.StoreIndex? || s.updater.SetFlag? ==> s.history[Latest(s)].applied.Some?)
    && (s.updater.SetFlag? ==> s.index == Some(Latest(s)))
    && (s.flag ==> s.index.Some?)
    && (s.index.Some? ==>
            s.index.value <= s.revision && s.index.value <= s.term && s.history[s.index.value].applied.Some?)
  }

  predicate AtLeast(loaded: Option<nat>, v: nat, latest: nat) {
    loaded.Some? ==> v <= loaded.value <= latest
  }

  /** A reader that holds an index holds one of a published version, and everything it loaded
      afterwards is from that version or a later one. */
  predicate ReaderFits(s: Shared, r: Reader)
    requires s.history != []
  {
    match r
    case SawFlag => s.index.Some?
    case Got(index, directory, term, revision) =>
      && index.Some? && index.value <= Latest(s) && s.history[index.value].applied.Some?
      && index.value <= s.directory && index.value <= s.term && index.value <= s.revision
      && AtLeast(directory, index.value, Latest(s)) && AtLeast(term, index.value, Latest(s))
      && AtLeast(revision, index.value, Latest(s))
    case _ => true
  }

  ghost predicate Invariant(s: Shared) {
    CellsFit(s) && forall r :: r in s.readers ==> ReaderFits(s, s.readers[r])
  }

  lemma UpdaterKeeps(s: Shared, move: Move)
    requires Invariant(s) && (move.Publish? || move.Advance?)
    ensures Invariant(Take(s, move))
  {
    var s' := Take(s, move);
    forall r | r in s'.readers ensures ReaderFits(s', s'.readers[r]) {
      assert ReaderFits(s, s.readers[r]);
    }
  }

  lemma ReaderKeeps(s: Shared, move: Move)
    requires Invariant(s) && !move.Publish? && !move.Advance?
    ensures Invariant(Take(s, move))
  {
    var r := move.reader;
    if move.Start? {
      SetKeeps(s, r, Fresh);
    } else if r in s.readers {
      assert ReaderFits(s, s.readers[r]);
      SetKeeps(s, r, Take(s, move).readers[r]);
    }
  }

  lemma SetKeeps(s: Shared, reader: nat, state: Reader)
    requires Invariant(s) && ReaderFits(s, state)
    ensures Invariant(Set(s, reader, state))
  {}

  function Play(s: Shared, moves: seq<Move>): (t: Shared)
    requires s.history != []
    ensures t.history != []
    decreases |moves|
  {
    if moves == [] then s else Play(Take(s, moves[0]), moves[1..])
  }

  lemma TakeKeeps(s: Shared, move: Move)
    requires Invariant(s)
    ensures Invariant(Take(s, move))
  {
    if move.Publish? || move.Advance? {
      UpdaterKeeps(s, move);
    } else {
      ReaderKeeps(s, move);
    }
  }

  lemma NewFits(first: Version)
    ensures Invariant(New(first))
  {}

  lemma {:induction false} PlayKeeps(s: Shared, moves: seq<Move>)
    requires Invariant(s)
    ensures Invariant(Play(s, moves))
    decreases |moves|
  {
    hide ReaderFits, Take;
    if moves != [] {
      TakeKeeps(s, moves[0]);
      PlayKeeps(Take(s, moves[0]), moves[1..]);
    }
  }

  /** Published states only move forward. */
  ghost predicate Rising(history: seq<Version>) {
    forall i, j | 0 <= i <= j < |history| ::
      history[i].term <= history[j].term && history[i].revision <= history[j].revision
  }

  /** In every interleaving, a reader that obtained an applied index obtained the index of a published
      version, never the placeholder, and the directory, term and revision that it then loads come
      from that version or a later one; with states that only move forward, term and revision are at
      least those of the index it saw. */
  lemma ReadersSeeAtLeast(first: Version, moves: seq<Move>, r: nat)
    requires r in Play(New(first), moves).readers && Play(New(first), moves).readers[r].Got?
    ensures
      var s := Play(New(first), moves);
      var got := s.readers[r];
      && got.index.Some? && got.index.value < |s.history| && s.history[got.index.value].applied.Some?
      && (got.directory.Some? ==> got.index.value <= got.directory.value < |s.history|)
      && (got.term.Some? ==> got.index.value <= got.term.value < |s.history|)
      && (got.revision.Some? ==> got.index.value <= got.revision.value < |s.history|)
      && (Rising(s.history) && got.revision.Some? ==>
            s.history[got.index.value].revision <= s.history[got.revision.value].revision)
      && (Rising(s.history) && got.term.Some? ==> s.history[got.index.value].term <= s.history[got.term.value].term)
  {
    NewFits(first);
    PlayKeeps(New(first), moves);
    var s := Play(New(first), moves);
    hide Play;
    assert ReaderFits(s, s.readers[r]);
  }

  // ---- Between publications ----

  /** Between publications every cell shows the latest version, and the flag says whether it has an index. */
  predicate ShowsLatest(s: Shared) {
    && s.history != [] && s.directory == s.term == s.revision == Latest(s)
    && (s.flag <==> s.history[Latest(s)].applied.Some?) && (s.flag ==> s.index == Some(Latest(s)))
  }

  lemma {:induction false} IdleShows(s: Shared, moves: seq<Move>)
    requires Invariant(s) && (s.updater.Idle? ==> ShowsLatest(s))
    ensures Play(s, moves).updater.Idle? ==> ShowsLatest(Play(s, moves))
    decreases |moves|
  {
    hide ReaderFits;
    if moves != [] {
      TakeKeeps(s, moves[0]);
      IdleShows(Take(s, moves[0]), moves[1..]);
    }
  }

  /** However the updater and the readers took turns, whenever no publication is under way the latest
      published version is what the cells show, all of it. */
  lemma IdleShowsLatest(first: Version, moves: seq<Move>)
    ensures Play(New(first), moves).updater.Idle? ==> ShowsLatest(Play(New(first), moves))
  {
    hide Play;
    NewFits(first);
    IdleShows(New(first), moves);
  }

  /** A publication that starts between others is finished by five steps of the updater, or three if the
      version has no index. */
  lemma PublicationCompletes(s: Shared, version: Version)
    requires s.history != [] && s.updater.Idle?
    ensures
      var more := if version.applied.Some? then [Advance, Advance] else [];
      var steps := [Publish(version), Advance, Advance, Advance] + more;
      Play(s, steps).updater.Idle? && Play(s, steps).history == s.history + [version]
  {
    var s1 := Take(s, Publish(version));
    var s2 := Take(s1, Advance);
    var s3 := Take(s2, Advance);
    var s4 := Take(s3, Advance);
    assert s4.history == s.history + [version];
    if version.applied.Some? {
      var s5 := Take(s4, Advance);
      PlayTwo(s4, Advance, Advance);
      PlayFront(s, Publish(version), [Advance, Advance, Advance, Advance, Advance]);
      PlayFront(s1, Advance, [Advance, Advance, Advance, Advance]);
      PlayFront(s2, Advance, [Advance, Advance, Advance]);
      PlayFront(s3, Advance, [Advance, Advance]);
      assert [Publish(version), Advance, Advance, Advance] + [Advance, Advance] ==
             [Publish(version)] + [Advance, Advance, Advance, Advance, Advance];
    } else {
      PlayTwo(s2, Advance, Advance);
      PlayFront(s, Publish(version), [Advance, Advance, Advance]);
      PlayFront(s1, Advance, [Advance, Advance]);
      assert [Publish(version), Advance, Advance, Advance] + [] == [Publish(version)] + [Advance, Advance, Advance];
    }
  }

  lemma PlayFront(s: Shared, move: Move, rest: seq<Move>)
    requires s.history != []
    ensures Play(s, [move] + rest) == Play(Take(s, move), rest)
  {
    assert ([move] + rest)[1..] == rest;
  }

  lemma PlayTwo(s: Shared, a: Move, b: Move)
    requires s.history != []
    ensures Play(s, [a, b]) == Take(Take(s, a), b)
  {
    assert [a, b] == [a] + [b] && [b] == [b] + [];
    PlayFront(s, a, [b]);
    PlayFront(Take(s, a), b, []);
  }

  /** A reader that asks between publications gets the latest version whole, or learns that it has no
      index. */
  lemma UndisturbedReader(s: Shared, r: nat)
    requires ShowsLatest(s)
    ensures
      var asked := Take(Take(s, Start(r)), LoadFlag(r));
      var loaded := Take(Take(Take(Take(asked, LoadIndex(r)), LoadDirectory(r)), LoadTerm(r)), LoadRevision(r));
      var latest := Some(Latest(s));
      loaded.readers[r] == if s.history[Latest(s)].applied.Some? then Got(latest, latest, latest, latest) else NoIndex
  {}
}
