/** Replica convergence: machines that applied the same log agree, wherever they took or installed
    a checkpoint on the way. */
module Replicas {
  import opened Order
  import opened BrokerState
  import opened BrokerMachine
  import opened Coherence
  import opened ClaimRefinement
  import opened Refinement
  import opened Soundness
  import opened Checkpoints
  import opened Rebuilding
  import opened Entries
  import opened Fencing
  import opened Runs

  /** No command of the log meets a hazard when it is its turn. */
  ghost predicate Safe(m: Machine, log: seq<Command>)
    decreases |log|
  {
    log == [] || (!Hazard(m, log[0]) && Safe(Exec(m, log[0]).m, log[1..]))
  }

  lemma SafeStep(m: Machine, c: Command)
    requires Coherent(m) && !Hazard(m, c)
    ensures Coherent(Exec(m, c).m) && Refines(Exec(m, c), Step(m.state, c)) && !ClaimOverflows(m.state, c)
  {
    ExecRefines(m, c);
    hide Coherent, Exec, Step, ClaimOverflows, Grants, RenewHazard;
  }

  /** Along a safe run the indexed machine is the index-free one, reply by reply, and stays coherent. */
  lemma {:induction false} RunRefines(m: Machine, log: seq<Command>)
    requires Coherent(m) && Safe(m, log)
    ensures Coherent(After(m, log)) && After(m, log).state == StateAfter(m.state, log)
    ensures Replies(m, log) == RepliesOf(m.state, log)
    decreases |log|
  {
    hide Coherent, Exec, Step, Hazard;
    if log != [] {
      SafeStep(m, log[0]);
      RunRefines(Exec(m, log[0]).m, log[1..]);
    }
  }

  /** Some state along the run is incoherent. */
  ghost predicate Breaks(m: Machine, log: seq<Command>)
    decreases |log|
  {
    !Coherent(m) || (log != [] && Breaks(Exec(m, log[0]).m, log[1..]))
  }

  /** Safety is exactly what coherence in every state of the run asks for. */
  lemma {:induction false} SafeExactly(m: Machine, log: seq<Command>)
    requires Coherent(m)
    ensures Safe(m, log) <==> !Breaks(m, log)
    decreases |log|
  {
    hide Coherent, Exec, Step, Hazard;
    if log != [] {
      ExecRefines(m, log[0]);
      if !Hazard(m, log[0]) {
        SafeExactly(Exec(m, log[0]).m, log[1..]);
      } else {
        assert !Coherent(Exec(m, log[0]).m);
      }
    }
  }

  lemma {:induction false} SoundRun(s: State, log: seq<Command>)
    requires Sound(s)
    ensures Sound(StateAfter(s, log))
    decreases |log|
  {
    hide Sound, Step;
    if log != [] {
      StepSound(s, log[0]);
      SoundRun(Step(s, log[0]).state, log[1..]);
    }
  }

  // ---- A machine that tracks another ----

  /** Same state, both coherent, and no expiration entry that the other does not have. */
  ghost predicate Tracks(b: Machine, a: Machine) {
    a.state == b.state && Coherent(a) && Coherent(b) && Within(b.expirations, a.expirations)
  }

  lemma HazardTransfers(b: Machine, a: Machine, c: Command)
    requires Tracks(b, a) && !Hazard(a, c)
    ensures !Hazard(b, c)
  {
    hide Coherent, ClaimOverflows, Grants, GrantKey, ClaimNamespace, RenewStep;
  }

  lemma TracksStep(b: Machine, a: Machine, c: Command)
    requires Tracks(b, a) && !Hazard(a, c)
    ensures !Hazard(b, c) && Tracks(Exec(b, c).m, Exec(a, c).m) && Exec(b, c).reply == Exec(a, c).reply
  {
    HazardTransfers(b, a, c);
    hide Coherent, Hazard, Exec, Step, ClaimOverflows, NextEntries, Within;
    SafeStep(a, c);
    SafeStep(b, c);
    ExecEntries(a, c);
    ExecEntries(b, c);
    NextWithin(b.expirations, a.expirations, a.state, c);
  }

  lemma RebuiltWithin(b: Machine, a: Machine)
    requires Coherent(a) && Clean(b) && b.state == a.state
    ensures Within(b.expirations, a.expirations)
  {
    Parts(a);
    hide Coherent;
    forall ns: nat, k: Key | k in HeapAt(b.expirations, ns) ensures k in HeapAt(a.expirations, ns) {
      assert Matches(a.state.tasks, k) && a.state.tasks[k.id].ns == ns;
    }
  }

  /** A machine rebuilt from the checkpoint of a coherent one tracks it. */
  lemma RestoredTracks(a: Machine)
    requires Coherent(a) && Sound(a.state)
    ensures FromCheckpoint(Export(a.state)).Ok? && Tracks(FromCheckpoint(Export(a.state)).value, a)
  {
    RoundTrip(a.state);
    RebuiltWithin(FromCheckpoint(Export(a.state)).value, a);
    hide Coherent, Clean, FromCheckpoint, Export, Within, AllOwned;
  }

  lemma TracksTransitive(c: Machine, b: Machine, a: Machine)
    requires Tracks(c, b) && Tracks(b, a)
    ensures Tracks(c, a)
  {}

  // ---- Replicas that restart from checkpoints anywhere in the log ----

  /** What happens to one replica: it applies the next committed command, or it is rebuilt from a
      checkpoint of the state it had reached (its own, or the same one received from another). */
  datatype Event = Apply(c: Command) | Reinstall

  function Reinstalled(m: Machine): Machine {
    match FromCheckpoint(Export(m.state))
    case Ok(m') => m'
    case Err(_) => m
  }

  function Commands(events: seq<Event>): seq<Command> {
    if events == [] then []
    else if events[0].Apply? then [events[0].c] + Commands(events[1..])
    else Commands(events[1..])
  }

  function ReplicaAfter(m: Machine, events: seq<Event>): Machine
    decreases |events|
  {
    if events == [] then m
    else if events[0].Apply? then ReplicaAfter(Exec(m, events[0].c).m, events[1..])
    else ReplicaAfter(Reinstalled(m), events[1..])
  }

  function ReplicaReplies(m: Machine, events: seq<Event>): seq<Result<Reply, Error>>
    decreases |events|
  {
    if events == [] then []
    else if events[0].Apply? then [Exec(m, events[0].c).reply] + ReplicaReplies(Exec(m, events[0].c).m, events[1..])
    else ReplicaReplies(Reinstalled(m), events[1..])
  }

  lemma ReinstalledTracks(b: Machine, a: Machine)
    requires Tracks(b, a) && Sound(a.state)
    ensures Tracks(Reinstalled(b), a)
  {
    RestoredTracks(b);
    TracksTransitive(Reinstalled(b), b, a);
    hide Tracks, FromCheckpoint, Export;
  }

  /** Convergence: a replica that is rebuilt from a checkpoint at any points of the log ends in the
      same authoritative state as one that never was, gives the same reply to every command and stays
      coherent, for every log that is safe for the machine that applied it all. */
  lemma {:induction false} Converge(a: Machine, b: Machine, events: seq<Event>)
    requires Tracks(b, a) && Sound(a.state) && Safe(a, Commands(events))
    ensures Tracks(ReplicaAfter(b, events), After(a, Commands(events)))
    ensures ReplicaReplies(b, events) == Replies(a, Commands(events))
    decreases |events|
  {
    hide Exec, Step, Hazard, Sound, Coherent, Within;
    if events != [] {
      var rest := events[1..];
      if events[0].Apply? {
        var c := events[0].c;
        assert Commands(events) == [c] + Commands(rest);
        TracksStep(b, a, c);
        SafeStep(a, c);
        StepSound(a.state, c);
        Converge(Exec(a, c).m, Exec(b, c).m, rest);
        assert ReplicaAfter(b, events) == ReplicaAfter(Exec(b, c).m, rest);
      } else {
        ReinstalledTracks(b, a);
        Converge(a, Reinstalled(b), rest);
      }
    }
  }

  lemma TracksItself(m: Machine)
    requires Coherent(m)
    ensures Tracks(m, m)
  {}

  lemma EmptyIsGood()
    ensures Coherent(EmptyMachine) && Sound(EmptyState)
  {}

  /** Any two replicas of one log agree, whatever checkpoints each of them went through. */
  lemma ReplicasAgree(one: seq<Event>, other: seq<Event>)
    requires Commands(one) == Commands(other) && Safe(EmptyMachine, Commands(one))
    ensures ReplicaAfter(EmptyMachine, one).state == ReplicaAfter(EmptyMachine, other).state
    ensures ReplicaReplies(EmptyMachine, one) == ReplicaReplies(EmptyMachine, other)
    ensures Coherent(ReplicaAfter(EmptyMachine, one)) && Sound(ReplicaAfter(EmptyMachine, one).state)
  {
    EmptyIsGood();
    TracksItself(EmptyMachine);
    hide Coherent, Sound, Safe, After, Replies, ReplicaAfter, ReplicaReplies, Within;
    Converge(EmptyMachine, EmptyMachine, one);
    Converge(EmptyMachine, EmptyMachine, other);
    RunRefines(EmptyMachine, Commands(one));
    SoundRun(EmptyState, Commands(one));
  }

  // ---- Logs that can meet no foreign entry ----

  /** Every Task and every expiration entry of Task `t` is in the namespace `home(t)`. */
  ghost predicate Homed(m: Machine, home: nat -> nat) {
    && (forall t :: t in m.state.tasks ==> m.state.tasks[t].ns == home(t))
    && EntriesHomed(m.expirations, home)
  }

  ghost predicate EntriesHomed(expirations: map<nat, multiset<Key>>, home: nat -> nat) {
    forall ns: nat, k: Key :: k in HeapAt(expirations, ns) ==> home(k.id) == ns
  }

  /** The command publishes no Task id outside its home namespace. */
  predicate KeepsHome(c: Command, home: nat -> nat) {
    c.PublishTask? ==> c.ns == home(c.task)
  }

  lemma HomedTasks(s: State, c: Command, home: nat -> nat, t: nat)
    requires forall u :: u in s.tasks ==> s.tasks[u].ns == home(u)
    requires KeepsHome(c, home) && t in Step(s, c).state.tasks
    ensures Step(s, c).state.tasks[t].ns == home(t)
  {
    StepLawful(s, c, t);
    hide Step, Renews, Completes;
  }

  lemma HomedPush(expirations: map<nat, multiset<Key>>, home: nat -> nat, ns: nat, k: Key)
    requires EntriesHomed(expirations, home) && home(k.id) == ns
    ensures EntriesHomed(Push(expirations, ns, k), home)
  {
    forall n: nat, j: Key | j in HeapAt(Push(expirations, ns, k), n) ensures home(j.id) == n {
      PushHas(expirations, ns, k, n, j);
    }
  }

  lemma HomedDrain(expirations: map<nat, multiset<Key>>, home: nat -> nat, ns: nat, now: nat)
    requires EntriesHomed(expirations, home)
    ensures EntriesHomed(DrainAt(expirations, ns, now), home)
  {
    forall n: nat, j: Key | j in HeapAt(DrainAt(expirations, ns, now), n) ensures home(j.id) == n {
      DrainAtHas(expirations, ns, now, n, j);
    }
  }

  lemma GrantIsInNamespace(s: State, c: Command)
    requires Grants(s, c)
    ensures GrantKey(s, c).id in s.tasks && s.tasks[GrantKey(s, c).id].ns == ClaimNamespace(s, c)
  {}

  lemma HomedEntries(expirations: map<nat, multiset<Key>>, s: State, c: Command, home: nat -> nat)
    requires EntriesHomed(expirations, home) && forall u :: u in s.tasks ==> s.tasks[u].ns == home(u)
    ensures EntriesHomed(NextEntries(expirations, s, c), home)
  {
    hide EntriesHomed, Push, DrainAt, RenewStep, Admit, LeaseHolders, ClaimOverflows, GrantKey;
    if Renews(s, c) {
      HomedPush(expirations, home, s.tasks[c.task].ns, RenewKey(s, c));
    } else if FreshClaim(s, c) {
      var ns := ClaimNamespace(s, c);
      HomedDrain(expirations, home, ns, c.now);
      if Grants(s, c) {
        GrantIsInNamespace(s, c);
        HomedPush(DrainAt(expirations, ns, c.now), home, ns, GrantKey(s, c));
      }
    }
  }

  lemma HomedStep(m: Machine, c: Command, home: nat -> nat)
    requires Coherent(m) && Homed(m, home) && KeepsHome(c, home) && !Hazard(m, c)
    ensures Homed(Exec(m, c).m, home)
  {
    hide Coherent, Exec, Step, Hazard, NextEntries, EntriesHomed, ClaimOverflows;
    SafeStep(m, c);
    ExecEntries(m, c);
    HomedEntries(m.expirations, m.state, c, home);
    forall t | t in Step(m.state, c).state.tasks ensures Step(m.state, c).state.tasks[t].ns == home(t) {
      HomedTasks(m.state, c, home, t);
    }
  }

  /** With every Task id at home, overflow of a claim is the only hazard there is. */
  lemma OnlyOverflowIsHazard(m: Machine, c: Command, home: nat -> nat)
    requires Homed(m, home)
    ensures Hazard(m, c) <==> ClaimOverflows(m.state, c)
  {}

  ghost predicate NeverOverflows(s: State, log: seq<Command>)
    decreases |log|
  {
    log == [] || (!ClaimOverflows(s, log[0]) && NeverOverflows(Step(s, log[0]).state, log[1..]))
  }

  /** A log that never publishes one Task id in two namespaces is safe exactly when, by the
      index-free meaning, none of its claims overflows a counter or a deadline. */
  lemma {:induction false} HomedLogIsSafe(m: Machine, log: seq<Command>, home: nat -> nat)
    requires Coherent(m) && Homed(m, home) && forall c | c in log :: KeepsHome(c, home)
    ensures Safe(m, log) <==> NeverOverflows(m.state, log)
    decreases |log|
  {
    hide Coherent, Exec, Step, Hazard, ClaimOverflows, Homed;
    if log != [] {
      var c := log[0];
      assert c in log && forall d | d in log[1..] :: d in log;
      OnlyOverflowIsHazard(m, c, home);
      if !Hazard(m, c) {
        SafeStep(m, c);
        HomedStep(m, c, home);
        HomedLogIsSafe(Exec(m, c).m, log[1..], home);
      }
    }
  }
}
