/** The single-node adapter: a Broker in memory over a journaled repository on disk. */
module Standalone {
  import opened Order
  import opened BrokerState
  import opened BrokerMachine
  import opened Coherence
  import opened ClaimRefinement
  import opened Refinement
  import opened Soundness
  import opened Checkpoints
  import opened Rebuilding
  import opened Atomicity
  import opened Journals
  import opened Broker

  /** The longest line that is read back from a journal. */
  const MAX_RECORD: nat := 134217728

  /** One line of the journal file: a record, and how many bytes it takes. */
  datatype Line = Line(record: Mutation, length: nat)

  function Mutations(lines: seq<Line>): seq<Mutation> {
    seq(|lines|, i requires 0 <= i < |lines| => lines[i].record)
  }

  function Length(lines: seq<Line>): nat {
    if lines == [] then 0 else Length(lines[..|lines| - 1]) + lines[|lines| - 1].length
  }

  predicate Readable(lines: seq<Line>) {
    forall l | l in lines :: l.length <= MAX_RECORD
  }

  /** Fold a journal file over a snapshot, as a restart does. */
  function ReadBack(s: State, lines: seq<Line>): Result<State, StorageError>
    decreases |lines|
  {
    if lines == [] then Ok(s)
    else if lines[0].length > MAX_RECORD then Err(RecordTooLong)
    else
      match ApplyMutation(s, lines[0].record)
      case Err(e) => Err(e)
      case Ok((s', _)) => ReadBack(s', lines[1..])
  }

  /** A journal file is read back as the records in it, if and only if no line is too long. */
  lemma {:induction false} ReadBackIsReplay(s: State, lines: seq<Line>)
    ensures Readable(lines) ==> ReadBack(s, lines) == Replay(s, Mutations(lines))
    ensures !Readable(lines) ==> ReadBack(s, lines).Err?
    decreases |lines|
  {
    hide ApplyMutation;
    if lines != [] {
      var rest := lines[1..];
      assert Mutations(lines)[1..] == Mutations(rest);
      assert Readable(lines) <==> lines[0].length <= MAX_RECORD && Readable(rest) by {
        assert forall l | l in lines :: l == lines[0] || l in rest;
      }
      var applied := ApplyMutation(s, lines[0].record);
      if applied.Ok? {
        ReadBackIsReplay(applied.value.0, rest);
      }
    }
  }

  lemma LinesMore(lines: seq<Line>, l: Line)
    ensures Mutations(lines + [l]) == Mutations(lines) + [l.record] && Length(lines + [l]) == Length(lines) + l.length
    ensures Readable(lines + [l]) <==> Readable(lines) && l.length <= MAX_RECORD
  {
    var more := lines + [l];
    assert more[..|lines|] == lines;
    assert forall k | k in lines :: k in more;
    assert l in more;
  }

  lemma NoLines()
    ensures Readable([]) && Length([]) == 0
  {}

  /** What is on disk. */
  datatype Disk = Disk(snapshot: State, journal: seq<Line>)

  /** The records on disk lead to `s`, and none of them is newer. */
  predicate Leads(d: Disk, s: State) {
    Replay(d.snapshot, Mutations(d.journal)) == Ok(s) && AllAtMost(Mutations(d.journal), s.revision)
  }

  lemma LeadsToOne(d: Disk, a: State, b: State)
    requires Leads(d, a) && Leads(d, b)
    ensures a == b
  {}

  /** The record of any command that changes a sound state leads to the new state, and a restart reads it
      back exactly if it is not too long: writing does not ask. */
  lemma LongRecordsAreLost(s: State, c: Command, size: nat)
    requires Sound(s) && Step(s, c).state != s
    ensures EncodeMutation(Step(s, c).state, Step(s, c).changes).Ok?
    ensures
      var s', line := Step(s, c).state, Line(EncodeMutation(Step(s, c).state, Step(s, c).changes).value, size);
      && Leads(Disk(s, [line]), s')
      && ReadBack(s, [line]) == if size <= MAX_RECORD then Ok(s') else Err(RecordTooLong)
  {
    hide Step, Sound, EncodeMutation, ApplyMutation;
    RecordAccepted(s, c);
    var s', line := Step(s, c).state, Line(EncodeMutation(Step(s, c).state, Step(s, c).changes).value, size);
    EncodedRevision(s', Step(s, c).changes);
    assert Mutations([line]) == [line.record];
    assert ReadBack(s', []) == Ok(s') && Replay(s', []) == Ok(s');
    assert [line][1..] == [] && [line.record][1..] == [];
  }

  class Repository {
    // What is on disk.
    var snapshot: State
    var journal: seq<Line>
    // What the process remembers about it.
    var commits: nat
    var bytes: nat
    var deferred: bool
    const compactEvery: nat
    const maxBytes: nat

    constructor (compactEvery: nat, maxBytes: nat)
      ensures Holds(EmptyState) && !deferred && commits == 0 && bytes == 0
    {
      this.compactEvery, this.maxBytes := compactEvery, maxBytes;
      snapshot, journal, commits, bytes, deferred := EmptyState, [], 0, 0, false;
    }

    /** What a restart would load. */
    ghost function Image(): Result<State, StorageError>
      reads this
    {
      ReadBack(snapshot, journal)
    }

    ghost function OnDisk(): Disk
      reads this
    {
      Disk(snapshot, journal)
    }

    ghost predicate Bears(s: State)
      reads this
    {
      Leads(OnDisk(), s)
    }

    /** The disk leads to `s`, and a restart can read it. */
    ghost predicate Holds(s: State)
      reads this
    {
      Bears(s) && Readable(journal)
    }

    /** Replay the journal over the snapshot. */
    method Load() returns (r: Result<State, StorageError>)
      modifies this`commits, this`bytes, this`deferred
      ensures r == old(Image()) && Image() == old(Image())
      ensures r.Ok? ==>
                !deferred && bytes == Length(journal) && commits == Ahead(r.value.revision, snapshot.revision)
    {
      var s, i, size := snapshot, 0, 0;
      while i < |journal|
        invariant 0 <= i <= |journal| && ReadBack(s, journal[i..]) == ReadBack(snapshot, journal)
        invariant size == Length(journal[..i])
      {
        hide ApplyMutation;
        assert journal[i..][1..] == journal[i + 1..];
        assert journal[..i + 1][..i] == journal[..i];
        if journal[i].length > MAX_RECORD {
          return Err(RecordTooLong);
        }
        var applied := ApplyMutation(s, journal[i].record);
        if applied.Err? {
          return Err(applied.error);
        }
        s, size := applied.value.0, size + journal[i].length;
        i := i + 1;
      }
      assert journal[..|journal|] == journal;
      bytes := size;
      commits := Ahead(s.revision, snapshot.revision);
      deferred := false;
      r := Ok(s);
    }

    /** Write a new snapshot, then empty the journal.  At every point in between, the disk leads either
        to where it led before or to the new state. */
    method Compact(s: State, writing: Io, truncating: Io, ghost prior: State) returns (ok: bool)
      modifies this`snapshot, this`journal, this`commits, this`bytes
      ensures old(Bears(prior)) && prior.revision <= s.revision ==> Bears(s) || (Bears(prior) && !ok)
      ensures ok <==> writing.Done? && truncating.Done?
      ensures snapshot == if writing.FailedBefore? then old(snapshot) else s
      ensures journal == if writing.Done? && !truncating.FailedBefore? then [] else old(journal)
      ensures if ok then commits == 0 == bytes else unchanged(`commits, `bytes)
    {
      if writing.FailedBefore? {
        return false;
      }
      snapshot := s;
      if AllAtMost(Mutations(journal), s.revision) {
        StaleRecordsIgnored(s, Mutations(journal));
      }
      if writing.FailedAfter? || truncating.FailedBefore? {
        return false;
      }
      journal := [];
      if truncating.FailedAfter? {
        return false;
      }
      commits, bytes := 0, 0;
      ok := true;
    }

    /** The disk leads to `prior`, and the record of the change set leads from there to `s`. */
    ghost predicate Fits(prior: State, s: State, ch: Changes)
      reads this
    {
      Bears(prior) && prior.revision < s.revision &&
      (EncodeMutation(s, ch).Ok? ==> ApplyMutation(prior, EncodeMutation(s, ch).value) == Ok((s, true)))
    }

    /** The journal has grown enough to be compacted. */
    predicate Full(commits: nat, bytes: nat) {
      commits >= compactEvery || bytes >= maxBytes
    }

    /** A commit of `size` bytes is bound to fail: the disk fails what it depends on, or the counters of
        the journal cannot take it. */
    predicate Faulty(size: nat, appending: Io, writing: Io, truncating: Io)
      reads this
    {
      if deferred then !(writing.Done? && truncating.Done?)
      else !appending.Done? || bytes + size > U64_MAX || commits >= U64_MAX
    }

    /** Make one change set durable.  Success means that the disk leads to the new state; after a failure
        it leads to the old one or the new one.  It fails exactly if it is bound to or the change set cannot
        be encoded: a compaction that fails after the record is on disk is only deferred, and the next
        commit depends on it.  A success can be read back exactly if the record is not too long or has
        been compacted away. */
    method Commit(s: State, ch: Changes, size: nat, appending: Io, writing: Io, truncating: Io, ghost prior: State)
      returns (r: Result<(), StorageError>)
      modifies this
      ensures old(Fits(prior, s, ch)) ==> if r.Ok? then Bears(s) else Bears(s) || Bears(prior)
      ensures r.Err? <==> old(Faulty(size, appending, writing, truncating)) ||
                          (!old(deferred) && EncodeMutation(s, ch).Err?)
      ensures r.Ok? ==>
                var full := old(deferred || Full(commits + 1, bytes + size));
                && (deferred <==> full && !(writing.Done? && truncating.Done?))
                && (full && !deferred ==> snapshot == s && journal == [] && commits == 0 == bytes)
                && (!full ==>
                      unchanged(`snapshot) && journal == old(journal) + [Line(EncodeMutation(s, ch).value, size)])
                && (!full || deferred ==> commits == old(commits) + 1 && bytes == old(bytes) + size)
                && (old(Readable(journal)) ==>
                      (Readable(journal) <==>
                         size <= MAX_RECORD || (full && writing.Done? && !truncating.FailedBefore?)))
      ensures r.Err? ==>
                && deferred == old(deferred)
                && if old(deferred) || (EncodeMutation(s, ch).Ok? && !appending.Done?) then r.error == IoFailure
                   else if EncodeMutation(s, ch).Err? then r.error == EncodeMutation(s, ch).error
                   else r.error == AccountingOverflow
      ensures bytes <= old(bytes) + size && commits <= old(commits) + 1
      ensures old(Readable(journal)) && size <= MAX_RECORD ==> Readable(journal)
      ensures Length(journal) <= old(Length(journal)) + size
    {
      hide ApplyMutation, EncodeMutation, Replay, Readable, Length, Mutations;
      NoLines();
      if deferred {
        var compacted := Compact(s, writing, truncating, prior);
        if !compacted {
          return Err(IoFailure);
        }
        deferred := false;
        return Ok(());
      }
      var encoded := EncodeMutation(s, ch);
      if encoded.Err? {
        return Err(encoded.error);
      }
      if appending.FailedBefore? {
        return Err(IoFailure);
      }
      EncodedRevision(s, ch);
      if Replay(snapshot, Mutations(journal)).Ok? {
        ReplayAppend(snapshot, Mutations(journal), encoded.value);
      }
      LinesMore(journal, Line(encoded.value, size));
      journal := journal + [Line(encoded.value, size)];
      if appending.FailedAfter? {
        return Err(IoFailure);
      }
      if bytes + size > U64_MAX {
        return Err(AccountingOverflow);
      }
      bytes := bytes + size;
      if commits >= U64_MAX {
        return Err(AccountingOverflow);
      }
      commits := commits + 1;
      if Full(commits, bytes) {
        var compacted := Compact(s, writing, truncating, s);
        if !compacted {
          deferred := true;
        }
      }
      r := Ok(());
    }
  }

  /** How far one revision is ahead of another. */
  function Ahead(a: nat, b: nat): nat {
    if a >= b then a - b else 0
  }

  lemma EncodedRevision(s: State, ch: Changes)
    requires EncodeMutation(s, ch).Ok?
    ensures EncodeMutation(s, ch).value.revision == s.revision
  {}

  datatype ProposeError = Refused(cause: Error) | PersistenceError

  class StandaloneAdapter {
    const repository: Repository
    const machine: BrokerStateMachine
    var poisoned: bool

    /** The Broker is coherent and sound, and unless poisoned the disk leads exactly to its state, with no
        more commits counted than there were revisions. */
    ghost predicate Valid()
      reads this, repository, machine
    {
      && Coherent(machine.Abs()) && Sound(machine.state)
      && (!poisoned ==> repository.Bears(machine.state) && repository.commits <= machine.state.revision)
    }

    constructor (repository: Repository, machine: BrokerStateMachine)
      ensures this.repository == repository && this.machine == machine && !poisoned
    {
      this.repository, this.machine, poisoned := repository, machine, false;
    }

    /** Open the adapter over whatever the disk holds: it succeeds exactly when the disk loads to a
        restorable state, and then memory is that state with freshly rebuilt, coherent indexes. */
    static method Open(repository: Repository) returns (r: Result<StandaloneAdapter, ProposeError>)
      modifies repository
      ensures repository.snapshot == old(repository.snapshot) && repository.journal == old(repository.journal)
      ensures r.Ok? <==> old(repository.Image()).Ok? && Restorable(old(repository.Image()).value)
      ensures r.Ok? ==>
                && fresh(r.value) && fresh(r.value.machine) && r.value.repository == repository && !r.value.poisoned
                && r.value.machine.state == old(repository.Image()).value && Coherent(r.value.machine.Abs())
                && Clean(r.value.machine.Abs()) && repository.Holds(r.value.machine.state)
                && !repository.deferred && repository.bytes == Length(repository.journal)
      ensures r.Ok? && Sound(old(repository.Image()).value) ==> r.value.Valid()
    {
      hide Coherent, Clean, Restorable, FromCheckpoint, Export, Sound, Replay, AllAtMost, Readable, Length;
      ReadBackIsReplay(repository.snapshot, repository.journal);
      var loaded := repository.Load();
      if loaded.Err? {
        return Err(PersistenceError);
      }
      ReplayedAtMost(repository.snapshot, Mutations(repository.journal));
      RoundTrip(loaded.value);
      var restored := BrokerStateMachine.Restore(Export(loaded.value));
      if restored.Err? {
        return Err(PersistenceError);
      }
      var adapter := new StandaloneAdapter(repository, restored.value);
      r := Ok(adapter);
    }

    /** Propose one command.  A fail-stopped adapter refuses everything and changes nothing. */
    method Propose(c: Command, size: nat, appending: Io, writing: Io, truncating: Io)
      returns (r: Result<Reply, ProposeError>)
      modifies this, repository, machine
      ensures old(poisoned) ==> r == Err(PersistenceError) && unchanged(this, repository, machine)
      ensures !old(poisoned) ==> machine.Abs() == Exec(old(machine.Abs()), c).m
      ensures !old(poisoned) && old(Valid()) ==>
                Settled(old(machine.Abs()), c, old(repository.Faulty(size, appending, writing, truncating)),
                        old(repository.OnDisk()), repository.OnDisk(), poisoned, r)
      ensures old(Valid()) && !Hazard(old(machine.Abs()), c) ==> Valid()
      ensures Tidy(size, appending, writing, truncating)
    {
      hide Coherent, Sound, Hazard, ClaimOverflows, Step, Exec, Strays, EncodeMutation, ApplyMutation, Replay,
        AllAtMost, Readable, Length, Leads, Repository.Faulty, Mutations, Settled;
      if poisoned {
        return Err(PersistenceError);
      }
      ghost var m, valid := machine.Abs(), Valid();
      ghost var disk, faulty := repository.OnDisk(), repository.Faulty(size, appending, writing, truncating);
      var revision := machine.state.revision;
      var reply := machine.Execute(c);
      if reply.Err? {
        if valid {
          RefusedSettles(m, c, faulty, disk);
        }
        return Err(Refused(reply.error));
      }
      if valid {
        AcceptedFacts(m, c);
      }
      if machine.state.revision == revision {
        if valid {
          SameSettles(m, c, faulty, disk);
        }
        return Ok(reply.value);
      }
      var durable := Persist(size, appending, writing, truncating, m.state);
      if valid {
        PersistedSettles(m, c, faulty, disk, repository.OnDisk(), poisoned);
      }
      r := if durable then Ok(reply.value) else Err(PersistenceError);
    }

    /** A proposal adds at most its own record to the journal, and defers a compaction only if the disk
        failed. */
    twostate predicate Tidy(size: nat, appending: Io, writing: Io, truncating: Io)
      reads this, repository
    {
      && (old(Readable(repository.journal)) && size <= MAX_RECORD ==> Readable(repository.journal))
      && Length(repository.journal) <= old(Length(repository.journal)) + size
      && repository.bytes <= old(repository.bytes) + size
      && (!old(repository.deferred) && writing.Done? && truncating.Done? ==> !repository.deferred)
    }

    /** Commit what the machine has just changed, and stop for good if that fails. */
    method Persist(size: nat, appending: Io, writing: Io, truncating: Io, ghost prior: State) returns (ok: bool)
      requires !poisoned
      modifies this`poisoned, repository
      ensures poisoned == !ok
      ensures old(repository.Fits(prior, machine.state, machine.changes)) ==>
                if ok then repository.Bears(machine.state)
                else repository.Bears(machine.state) || repository.Bears(prior)
      ensures EncodeMutation(machine.state, machine.changes).Ok? ==>
                (ok <==> !old(repository.Faulty(size, appending, writing, truncating)))
      ensures repository.commits <= old(repository.commits) + 1 && Tidy(size, appending, writing, truncating)
    {
      hide EncodeMutation, ApplyMutation, Replay, AllAtMost, Readable, Length, Mutations;
      var committed := repository.Commit(machine.state, machine.changes, size, appending, writing, truncating, prior);
      if committed.Err? {
        poisoned := true;
      }
      ok := committed.Ok?;
    }
  }

  /** How a proposal of an adapter in good standing ends.  It ends with a durability failure exactly if
      the command changes the state and its commit is bound to fail. */
  predicate Settled(
    m: Machine, c: Command, faulty: bool, before: Disk, after: Disk, poisoned: bool, r: Result<Reply, ProposeError>)
  {
    var o, m' := Step(m.state, c), Exec(m, c).m;
    var changes := o.reply.Ok? && o.state != m.state;
    && (r == Err(PersistenceError) <==> changes && faulty)
    && (poisoned <==> r == Err(PersistenceError))
    && (!changes ==> after == before)
    && match r
       // A reply is given only for a durable change.
       case Ok(reply) => m'.state == o.state && Ok(reply) == o.reply && Leads(after, o.state)
       // A durability failure leaves a disk that leads to the old or the new state.
       case Err(PersistenceError) => Leads(after, m.state) || Leads(after, o.state)
       // A refused command leaves the disk as it was, and memory equal to it unless leases went astray.
       case Err(Refused(e)) =>
         Err(e) == o.reply && Leads(after, m.state) && (Leads(after, m'.state) <==> !Strays(m.state, c))
  }

  lemma RefusedSettles(m: Machine, c: Command, faulty: bool, disk: Disk)
    requires Coherent(m) && Sound(m.state) && Leads(disk, m.state) && Exec(m, c).reply.Err?
    ensures Settled(m, c, faulty, disk, disk, false, Err(Refused(Exec(m, c).reply.error)))
    ensures !Hazard(m, c) ==> Coherent(Exec(m, c).m) && Sound(Exec(m, c).m.state) && Exec(m, c).m.state == m.state
  {
    hide Coherent, Sound, Hazard, Step, Exec, Strays, Leads;
    RefusedFacts(m, c);
    if Leads(disk, Exec(m, c).m.state) {
      LeadsToOne(disk, m.state, Exec(m, c).m.state);
    }
  }

  lemma SameSettles(m: Machine, c: Command, faulty: bool, disk: Disk)
    requires Coherent(m) && Sound(m.state) && Leads(disk, m.state) && Exec(m, c).reply.Ok?
    requires Exec(m, c).m.state.revision == m.state.revision
    ensures Settled(m, c, faulty, disk, disk, false, Ok(Exec(m, c).reply.value))
  {
    hide Coherent, Sound, Hazard, Step, Exec, Strays, Leads, EncodeMutation, ApplyMutation;
    AcceptedFacts(m, c);
  }

  lemma PersistedSettles(m: Machine, c: Command, faulty: bool, before: Disk, after: Disk, poisoned: bool)
    requires Coherent(m) && Sound(m.state) && Exec(m, c).reply.Ok?
    requires Exec(m, c).m.state.revision != m.state.revision
    requires Leads(after, Exec(m, c).m.state) || (poisoned && Leads(after, m.state))
    requires poisoned == faulty
    ensures Settled(m, c, faulty, before, after, poisoned,
                    if poisoned then Err(PersistenceError) else Ok(Exec(m, c).reply.value))
  {
    hide Coherent, Sound, Hazard, Step, Exec, Strays, Leads, EncodeMutation, ApplyMutation;
    AcceptedFacts(m, c);
  }

  lemma RefusedFacts(m: Machine, c: Command)
    requires Coherent(m) && Sound(m.state) && Exec(m, c).reply.Err?
    ensures !Hazard(m, c) ==> Coherent(Exec(m, c).m) && Sound(Exec(m, c).m.state) && !Strays(m.state, c)
    ensures Exec(m, c).reply == Step(m.state, c).reply
    ensures Exec(m, c).m.state == m.state <==> !Strays(m.state, c)
  {
    hide *;
    ProposeFacts(m, c);
  }

  lemma AcceptedFacts(m: Machine, c: Command)
    requires Coherent(m) && Sound(m.state) && Exec(m, c).reply.Ok?
    ensures !Hazard(m, c) ==> Coherent(Exec(m, c).m) && Sound(Exec(m, c).m.state)
    ensures
      var s', ch := Exec(m, c).m.state, Exec(m, c).m.changes;
      && Exec(m, c).reply == Step(m.state, c).reply && s' == Step(m.state, c).state
      && if s'.revision == m.state.revision then s' == m.state
         else
           && s'.revision == m.state.revision + 1 && EncodeMutation(s', ch).Ok?
           && ApplyMutation(m.state, EncodeMutation(s', ch).value) == Ok((s', true))
  {
    hide Exec, Step, Coherent, Sound, Hazard, Strays, EncodeMutation, ApplyMutation;
    ProposeFacts(m, c);
  }

  /** Whatever a journal replays to, none of its records is newer. */
  lemma {:induction false} ReplayedAtMost(s: State, journal: seq<Mutation>)
    requires Replay(s, journal).Ok?
    ensures s.revision <= Replay(s, journal).value.revision && AllAtMost(journal, Replay(s, journal).value.revision)
    decreases |journal|
  {
    if journal != [] {
      ReplayedAtMost(ApplyMutation(s, journal[0]).value.0, journal[1..]);
      AppliedAtMost(s, journal[0]);
      assert forall mu | mu in journal :: mu == journal[0] || mu in journal[1..];
    }
    hide ApplyMutation;
  }

  lemma AppliedAtMost(s: State, mu: Mutation)
    requires ApplyMutation(s, mu).Ok?
    ensures s.revision <= ApplyMutation(s, mu).value.0.revision && mu.revision <= ApplyMutation(s, mu).value.0.revision
  {}

  /** Everything about one command that the adapter relies on. */
  lemma ProposeFacts(m: Machine, c: Command)
    requires Coherent(m) && Sound(m.state)
    ensures !Hazard(m, c) ==> Coherent(Exec(m, c).m) && Sound(Exec(m, c).m.state) && !Strays(m.state, c)
    ensures Exec(m, c).reply == Step(m.state, c).reply
    ensures Exec(m, c).reply.Err? ==> (Exec(m, c).m.state == m.state <==> !Strays(m.state, c))
    ensures Exec(m, c).reply.Ok? ==>
              && Exec(m, c).m.state == Step(m.state, c).state && Exec(m, c).m.changes == Step(m.state, c).changes
              && Counted(m.state, Step(m.state, c).state)
              && (Step(m.state, c).state != m.state ==>
                    && EncodeMutation(Step(m.state, c).state, Step(m.state, c).changes).Ok?
                    && ApplyMutation(m.state, EncodeMutation(Step(m.state, c).state, Step(m.state, c).changes).value) ==
                         Ok((Step(m.state, c).state, true)))
  {
    hide *;
    ExecRefines(m, c);
    StepSound(m.state, c);
    ChangeSetExact(m.state, c);
    if ClaimOverflows(m.state, c) {
      OverflowStrays(m, c);
      OverflowFails(m.state, c);
      OverflowIsHazard(m, c);
    } else {
      RefinedState(m, c);
      NotOverflowNotStray(m.state, c);
      RejectedStep(m.state, c);
      RejectedState(m.state, c);
      if Step(m.state, c).state != m.state {
        RecordAccepted(m.state, c);
      }
    }
  }

  lemma RefinedState(m: Machine, c: Command)
    requires Refines(Exec(m, c), Step(m.state, c))
    ensures Exec(m, c).m.state == Step(m.state, c).state && Exec(m, c).m.changes == Step(m.state, c).changes
  {}

  lemma RejectedState(s: State, c: Command)
    requires Step(s, c).reply.Err? ==> Step(s, c) == Rejected(s, Step(s, c).reply.error)
    ensures Step(s, c).reply.Err? ==> Step(s, c).state == s
  {}

  lemma NotOverflowNotStray(s: State, c: Command)
    requires !ClaimOverflows(s, c)
    ensures !Strays(s, c)
  {}

  lemma OverflowFails(s: State, c: Command)
    requires ClaimOverflows(s, c)
    ensures Step(s, c).reply.Err?
  {}
}
