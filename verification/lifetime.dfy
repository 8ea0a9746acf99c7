/** The single-node Broker over its whole life: proposals, durability failures that stop it, crashes and
    restarts, in any order. */
module Lifetimes {
  import opened Order
  import opened Tasks
  import opened BrokerState
  import opened BrokerMachine
  import opened Coherence
  import opened ClaimRefinement
  import opened Refinement
  import opened Soundness
  import opened Checkpoints
  import opened Rebuilding
  import opened Atomicity
  import opened Replicas
  import opened Journals
  import opened Standalone

  /** What happens to the Broker, with what the disk does about it. */
  datatype Occurrence =
    | Try(c: Command, size: nat, appending: Io, writing: Io, truncating: Io)
    | Restart

  /** A proposal, the answer it got, and whether it took effect on disk. */
  datatype Event = Event(c: Command, answer: Result<Reply, ProposeError>, kept: bool)

  function Tried(script: seq<Occurrence>): seq<Command> {
    if script == [] then []
    else
      var last := script[|script| - 1];
      Tried(script[..|script| - 1]) + (if last.Try? then [last.c] else [])
  }

  function Commands(events: seq<Event>): seq<Command> {
    seq(|events|, i requires 0 <= i < |events| => events[i].c)
  }

  function Answers(events: seq<Event>): seq<Result<Reply, ProposeError>> {
    seq(|events|, i requires 0 <= i < |events| => events[i].answer)
  }

  /** The state that the kept proposals lead to. */
  function Kept(s: State, events: seq<Event>): State {
    if events == [] then s
    else
      var before, e := Kept(s, events[..|events| - 1]), events[|events| - 1];
      if e.kept then Step(before, e.c).state else before
  }

  /** The answer of an adapter that never fails to make a change durable. */
  function Answer(r: Result<Reply, Error>): Result<Reply, ProposeError> {
    match r
    case Ok(reply) => Ok(reply)
    case Err(e) => Err(Refused(e))
  }

  /** Where the commands lead, and what they are answered, by their meaning alone. */
  function Ended(s: State, commands: seq<Command>): State {
    if commands == [] then s
    else Step(Ended(s, commands[..|commands| - 1]), commands[|commands| - 1]).state
  }

  function Prescribed(s: State, commands: seq<Command>): seq<Result<Reply, ProposeError>> {
    if commands == [] then []
    else
      var before, c := commands[..|commands| - 1], commands[|commands| - 1];
      Prescribed(s, before) + [Answer(Step(Ended(s, before), c).reply)]
  }

  /** No record that is written is too long to be read back. */
  predicate Short(script: seq<Occurrence>) {
    forall o | o in script && o.Try? :: o.size <= MAX_RECORD
  }

  predicate Undisturbed(o: Occurrence) {
    o.Try? ==> o.appending.Done? && o.writing.Done? && o.truncating.Done?
  }

  predicate Smooth(script: seq<Occurrence>) {
    forall o | o in script :: Undisturbed(o)
  }

  /** The bytes of all records that are written. */
  function Written(script: seq<Occurrence>): nat {
    if script == [] then 0
    else
      var last := script[|script| - 1];
      Written(script[..|script| - 1]) + (if last.Try? then last.size else 0)
  }

  /** A reply is what the proposals kept before it prescribe, and its own was kept; a refusal is what they
      prescribe, and nothing was kept; only a reported durability failure leaves it open which. */
  predicate Truthful(s: State, e: Event) {
    match e.answer
    case Ok(reply) => e.kept && Step(s, e.c).reply == Ok(reply)
    case Err(Refused(cause)) => !e.kept && Step(s, e.c).reply == Err(cause)
    case Err(PersistenceError) => true
  }

  predicate AllTruthful(s: State, events: seq<Event>) {
    forall i | 0 <= i < |events| :: Truthful(Kept(s, events[..i]), events[i])
  }

  predicate IsOverflow(e: Error) {
    e == TimestampOverflow || e == CounterOverflow || e == TaskTransition(TaskCounterOverflow)
  }

  /** A claim was refused because a deadline or a counter cannot advance. */
  predicate Alarm(e: Event) {
    e.c.ClaimTask? && e.answer.Err? && e.answer.error.Refused? && IsOverflow(e.answer.error.cause)
  }

  predicate Alarmed(events: seq<Event>) {
    exists e | e in events :: Alarm(e)
  }

  /** The caller can tell from the answer that a claim overflowed. */
  lemma OverflowIsSeen(s: State, c: Command)
    ensures ClaimOverflows(s, c) <==> c.ClaimTask? && Step(s, c).reply.Err? && IsOverflow(Step(s, c).reply.error)
  {}

  ghost predicate TasksHomed(s: State, home: nat -> nat) {
    forall t :: t in s.tasks ==> s.tasks[t].ns == home(t)
  }

  lemma CleanHomed(m: Machine, home: nat -> nat)
    requires Clean(m) && TasksHomed(m.state, home)
    ensures Homed(m, home)
  {}

  lemma StepHomed(s: State, c: Command, home: nat -> nat)
    requires TasksHomed(s, home) && KeepsHome(c, home)
    ensures TasksHomed(Step(s, c).state, home)
  {
    hide Step;
    forall t | t in Step(s, c).state.tasks ensures Step(s, c).state.tasks[t].ns == home(t) {
      HomedTasks(s, c, home, t);
    }
  }

  /** The adapter stands where the kept proposals lead: in memory and on disk, or only on disk if it has
      stopped. */
  ghost predicate Stands(a: StandaloneAdapter, s: State, home: nat -> nat)
    reads a, a.repository, a.machine
  {
    && Sound(s) && TasksHomed(s, home) && a.repository.Bears(s)
    && (!a.poisoned ==> a.Valid() && a.machine.state == s && Homed(a.machine.Abs(), home))
  }

  /** What one proposal means for an adapter in good standing. */
  lemma Onward(m: Machine, c: Command, home: nat -> nat)
    requires Coherent(m) && Sound(m.state) && Homed(m, home) && KeepsHome(c, home)
    ensures Sound(Step(m.state, c).state) && TasksHomed(Step(m.state, c).state, home)
    ensures Step(m.state, c).reply.Err? ==> Step(m.state, c).state == m.state
    ensures if ClaimOverflows(m.state, c) then
              c.ClaimTask? && Step(m.state, c).reply.Err? && IsOverflow(Step(m.state, c).reply.error)
            else !Hazard(m, c) && Homed(Exec(m, c).m, home) && !Strays(m.state, c)
  {
    StepSound(m.state, c);
    StepHomed(m.state, c, home);
    hide Coherent, Exec, Step, Hazard, Sound, ClaimOverflows, Strays, IsOverflow, EntriesHomed;
    RejectedStep(m.state, c);
    OverflowIsSeen(m.state, c);
    if !ClaimOverflows(m.state, c) {
      OnlyOverflowIsHazard(m, c, home);
      HomedStep(m, c, home);
      NotOverflowNotStray(m.state, c);
    }
  }

  lemma StandsParts(a: StandaloneAdapter, s: State, home: nat -> nat)
    requires Stands(a, s, home) && !a.poisoned
    ensures Coherent(a.machine.Abs()) && Sound(a.machine.state) && Homed(a.machine.Abs(), home) && a.machine.state == s
    ensures a.Valid() && a.machine.Abs().state == s
  {}

  /** A command that changes the state finds a revision to count it with. */
  lemma ChangesAreCounted(s: State, c: Command)
    requires Step(s, c).reply.Ok? && Step(s, c).state != s
    ensures s.revision < U64_MAX
  {
    hide FirstN, StaleKeys, CompletedKeys, QueuedKeys, RequeueAll, Admit, InNamespace, GroupsInNamespace;
  }

  /** Nothing stands in the way of making a change of this size durable. */
  ghost predicate Ready(a: StandaloneAdapter, size: nat)
    reads a, a.repository
  {
    !a.poisoned && !a.repository.deferred && a.repository.bytes + size <= U64_MAX
  }

  method Propose(a: StandaloneAdapter, o: Occurrence, ghost s: State, ghost home: nat -> nat)
    returns (r: Result<Reply, ProposeError>, ghost kept: bool)
    requires o.Try? && KeepsHome(o.c, home)
    modifies a, a.repository, a.machine
    ensures
      var e := Event(o.c, r, kept);
      old(Stands(a, s, home)) && !Alarm(e) ==>
        && Truthful(s, e) && Stands(a, if kept then Step(s, o.c).state else s, home)
        && (old(Ready(a, o.size)) && Undisturbed(o) ==>
              && !a.poisoned && !a.repository.deferred && r == Answer(Step(s, o.c).reply)
              && (if kept then Step(s, o.c).state else s) == Step(s, o.c).state)
    ensures old(Readable(a.repository.journal)) && o.size <= MAX_RECORD ==> Readable(a.repository.journal)
    ensures Length(a.repository.journal) <= old(Length(a.repository.journal)) + o.size
    ensures a.repository.bytes <= old(a.repository.bytes) + o.size
  {
    hide Coherent, Sound, Hazard, ClaimOverflows, Step, Exec, Strays, Homed, TasksHomed, KeepsHome, IsOverflow,
      Readable, Length, Replay, AllAtMost;
    ghost var was, m := a.poisoned, a.machine.Abs();
    if Stands(a, s, home) && !was {
      StandsParts(a, s, home);
      Onward(m, o.c, home);
      if Step(s, o.c).reply.Ok? && Step(s, o.c).state != s {
        ChangesAreCounted(s, o.c);
      }
    }
    r := a.Propose(o.c, o.size, o.appending, o.writing, o.truncating);
    kept := r.Ok? || (!was && r == Err(PersistenceError) && !a.repository.Bears(s));
  }

  method Reopen(repository: Repository, ghost s: State, ghost home: nat -> nat)
    returns (r: Result<StandaloneAdapter, ProposeError>)
    modifies repository
    ensures repository.snapshot == old(repository.snapshot) && repository.journal == old(repository.journal)
    ensures r.Ok? ==> fresh(r.value) && fresh(r.value.machine) && r.value.repository == repository && !r.value.poisoned
    ensures r.Ok? ==> !repository.deferred && repository.bytes == Length(repository.journal)
    ensures old(repository.Bears(s)) && Sound(s) && TasksHomed(s, home) ==>
              (r.Ok? <==> Readable(repository.journal)) && (r.Ok? ==> Stands(r.value, s, home))
  {
    hide Coherent, Sound, Clean, Homed, TasksHomed, Restorable, Readable, Length, Replay, AllAtMost;
    ReadBackIsReplay(repository.snapshot, repository.journal);
    r := StandaloneAdapter.Open(repository);
    if Sound(s) {
      SoundRestorable(s);
    }
    if r.Ok? && TasksHomed(r.value.machine.state, home) {
      CleanHomed(r.value.machine.Abs(), home);
    }
  }

  // ---- Histories grow at the end ----

  lemma TriedMore(script: seq<Occurrence>, i: nat)
    requires i < |script|
    ensures Tried(script[..i + 1]) == Tried(script[..i]) + (if script[i].Try? then [script[i].c] else [])
  {
    assert script[..i + 1][..i] == script[..i];
  }

  lemma {:induction false} TriedPrefix(script: seq<Occurrence>, i: nat)
    requires i <= |script|
    ensures Tried(script[..i]) <= Tried(script)
    decreases |script| - i
  {
    if i == |script| {
      assert script[..i] == script;
    } else {
      TriedMore(script, i);
      TriedPrefix(script, i + 1);
    }
  }

  lemma KeptMore(s: State, events: seq<Event>, e: Event)
    ensures Kept(s, events + [e]) == if e.kept then Step(Kept(s, events), e.c).state else Kept(s, events)
    ensures AllTruthful(s, events) && Truthful(Kept(s, events), e) ==> AllTruthful(s, events + [e])
    ensures Alarmed(events) || Alarm(e) ==> Alarmed(events + [e])
    ensures Commands(events + [e]) == Commands(events) + [e.c] && Answers(events + [e]) == Answers(events) + [e.answer]
  {
    hide Step, Truthful;
    var more := events + [e];
    assert more[..|events|] == events;
    if AllTruthful(s, events) && Truthful(Kept(s, events), e) {
      forall i | 0 <= i < |more| ensures Truthful(Kept(s, more[..i]), more[i]) {
        assert i < |events| ==> more[..i] == events[..i];
      }
    }
    if Alarmed(events) {
      var a :| a in events && Alarm(a);
      assert a in more;
    } else if Alarm(e) {
      assert e in more;
    }
  }

  lemma WrittenMore(script: seq<Occurrence>, i: nat)
    requires i < |script|
    ensures Written(script[..i + 1]) == Written(script[..i]) + (if script[i].Try? then script[i].size else 0)
  {
    assert script[..i + 1][..i] == script[..i];
  }

  lemma {:induction false} WrittenPrefix(script: seq<Occurrence>, i: nat)
    requires i <= |script|
    ensures Written(script[..i]) <= Written(script)
    decreases |script| - i
  {
    if i == |script| {
      assert script[..i] == script;
    } else {
      WrittenMore(script, i);
      WrittenPrefix(script, i + 1);
    }
  }

  lemma PrescribedMore(s: State, commands: seq<Command>, c: Command)
    ensures Ended(s, commands + [c]) == Step(Ended(s, commands), c).state
    ensures Prescribed(s, commands + [c]) == Prescribed(s, commands) + [Answer(Step(Ended(s, commands), c).reply)]
  {
    hide Step;
    assert (commands + [c])[..|commands|] == commands;
  }

  /** Nothing has gone wrong so far: the adapter answers as prescribed, and the journal has room for what is
      still to come. */
  ghost predicate Steady(
    a: StandaloneAdapter, start: State, commands: seq<Command>, answers: seq<Result<Reply, ProposeError>>, s: State,
    written: nat)
    reads a, a.repository
  {
    && answers == Prescribed(start, commands) && s == Ended(start, commands)
    && !a.poisoned && !a.repository.deferred && a.repository.bytes <= written && Length(a.repository.journal) <= written
  }

  lemma SteadyMore(
    start: State, commands: seq<Command>, answers: seq<Result<Reply, ProposeError>>, s: State, c: Command)
    requires answers == Prescribed(start, commands) && s == Ended(start, commands)
    ensures answers + [Answer(Step(s, c).reply)] == Prescribed(start, commands + [c])
    ensures Step(s, c).state == Ended(start, commands + [c])
  {
    PrescribedMore(start, commands, c);
  }

  /** Everything that the disk does succeeds, and the journal never outgrows its counter. */
  predicate Untroubled(script: seq<Occurrence>, length: nat) {
    Smooth(script) && Short(script) && length + Written(script) <= U64_MAX
  }

  /** The whole life of a single-node Broker, from any sound disk, under any durability failures, crashes
      and restarts, for commands that keep each Task id to one namespace.  Unless a claim was answered
      with an overflow, the disk ends with exactly the state that the kept proposals lead to, every reply
      and every refusal is the one that the proposals kept before it prescribe, and only a proposal that
      was answered with a durability failure can be in doubt.  Every restart succeeds unless a record was
      too long; and if the disk never fails, every command is answered by its meaning, restarts or not. */
  method Live(repository: Repository, script: seq<Occurrence>, ghost home: nat -> nat)
    returns (answers: seq<Result<Reply, ProposeError>>, ghost events: seq<Event>)
    requires repository.Image().Ok? && Sound(repository.Image().value) && TasksHomed(repository.Image().value, home)
    requires forall o | o in script && o.Try? :: KeepsHome(o.c, home)
    modifies repository
    ensures Answers(events) == answers && Commands(events) <= Tried(script)
    ensures
      var start := old(repository.Image()).value;
      !Alarmed(events) ==>
        && AllTruthful(start, events) && repository.Bears(Kept(start, events))
        && (Short(script) ==> Commands(events) == Tried(script) && repository.Holds(Kept(start, events)))
        && (Untroubled(script, old(Length(repository.journal))) ==>
              answers == Prescribed(start, Tried(script)) && repository.Holds(Ended(start, Tried(script))))
  {
    hide Coherent, Sound, Homed, TasksHomed, KeepsHome, Step, Stands, Truthful, AllTruthful, Alarmed, Kept, Tried,
      Commands, Answers, Readable, Length, Leads, ReadBack, Prescribed, Ended, Short, Smooth, Written, Undisturbed;
    ghost var start, room := repository.Image().value, Length(repository.journal);
    events, answers := [], [];
    Nothing(start, script);
    LoadableLeads(repository);
    var started := Reopen(repository, start, home);
    var adapter, i := started.value, 0;
    while i < |script|
      invariant 0 <= i <= |script| && adapter.repository == repository && fresh(adapter) && fresh(adapter.machine)
      invariant Answers(events) == answers && Commands(events) == Tried(script[..i])
      invariant !Alarmed(events) ==> AllTruthful(start, events) && Stands(adapter, Kept(start, events), home)
      invariant Short(script) ==> Readable(repository.journal)
      invariant !Alarmed(events) && Untroubled(script, room) ==>
                  Steady(adapter, start, Tried(script[..i]), answers, Kept(start, events), room + Written(script[..i]))
    {
      TriedMore(script, i);
      TriedPrefix(script, i);
      WrittenMore(script, i);
      WrittenPrefix(script, i + 1);
      InScript(script, i);
      ghost var s := Kept(start, events);
      if script[i].Try? {
        ghost var kept;
        var r;
        r, kept := Propose(adapter, script[i], s, home);
        KeptMore(start, events, Event(script[i].c, r, kept));
        if answers == Prescribed(start, Tried(script[..i])) && s == Ended(start, Tried(script[..i])) {
          SteadyMore(start, Tried(script[..i]), answers, s, script[i].c);
        }
        answers, events := answers + [r], events + [Event(script[i].c, r, kept)];
      } else {
        if Stands(adapter, s, home) {
          StandsOnDisk(adapter, s, home);
        }
        started := Reopen(repository, s, home);
        if started.Err? {
          return;
        }
        adapter := started.value;
      }
      i := i + 1;
    }
    assert script[..|script|] == script;
    if Stands(adapter, Kept(start, events), home) {
      StandsOnDisk(adapter, Kept(start, events), home);
    }
  }

  lemma InScript(script: seq<Occurrence>, i: nat)
    requires i < |script|
    ensures script[i] in script
    ensures Smooth(script) ==> Undisturbed(script[i])
    ensures Short(script) && script[i].Try? ==> script[i].size <= MAX_RECORD
  {}

  lemma LoadableLeads(repository: Repository)
    requires repository.Image().Ok?
    ensures repository.Bears(repository.Image().value) && Readable(repository.journal)
  {
    ReadBackIsReplay(repository.snapshot, repository.journal);
    ReplayedAtMost(repository.snapshot, Mutations(repository.journal));
  }

  lemma StandsOnDisk(a: StandaloneAdapter, s: State, home: nat -> nat)
    requires Stands(a, s, home)
    ensures Sound(s) && TasksHomed(s, home) && a.repository.Bears(s)
  {}

  lemma Nothing(s: State, script: seq<Occurrence>)
    ensures Kept(s, []) == s && AllTruthful(s, []) && Commands([]) == [] == Tried(script[..0]) && Answers([]) == []
    ensures Prescribed(s, []) == [] && Ended(s, []) == s && Written(script[..0]) == 0
  {}
}
