/** The run in which a full request queue makes the client forget a command that was executed. */
module Overload {
  import opened Order
  import opened BrokerState
  import opened BrokerMachine
  import opened Sessions
  import opened Client
  import opened ExactlyOnce
  import opened Served
  import opened CarefulClient

  // One session, one owner, one command; the server fills in its own limit.
  const REQUEST := EnsureNamespace(5, 0)
  const COMMAND := EnsureNamespace(5, 10)
  const OTHER := EnsureNamespace(6, 0)
  const ID := Identity(0, 1, Some(1), 1)
  const ACQUIRE := AcquireMsg(1, 1)
  const MESSAGE := CommandMsg(ID, REQUEST, 0)

  const UNOWNED := Side(NewStore, 0)
  const ASKING := Side(Store(None, 1, Some(Pending(1, 1)), None), 0)
  const OWNED := Side(Store(Some(Owner(1, 1)), 1, None, None), 0)
  const WAITING := Side(Store(Some(Owner(1, 1)), 1, None, Some(Reserved(ID, REQUEST))), 0)

  const BLANK := Node(EmptyMachine, map[])
  const BOUND := Node(EmptyMachine, map[0 := Record(1, Some(1), None)])
  const GRANT := (ACQUIRE, OwnerAcquired(1))

  const START := World(BLANK, UNOWNED, UNOWNED, 0, None, multiset{}, {}, {}, [], {}, {})
  /** Owner acquired and command reserved; nothing of it sent yet. */
  const READY := World(BOUND, WAITING, WAITING, 1, Some(0), multiset{}, {ACQUIRE}, {GRANT}, [], {}, {})

  const SETUP := [BeginAcquire(1, Written), SendAcquire, Arrive(ACQUIRE, COMMAND), ConfirmAcquire(1, Written),
                  ReserveCommand(REQUEST, Written)]

  lemma Asks()
    ensures Take(0, START, BeginAcquire(1, Written)) == START.(mem := ASKING, disk := ASKING)
    ensures Take(0, START.(mem := ASKING, disk := ASKING), SendAcquire) ==
              START.(mem := ASKING, disk := ASKING, sent := {ACQUIRE}, frames := multiset{ACQUIRE})
  {}

  lemma Binds()
    ensures
      var w := START.(mem := ASKING, disk := ASKING, sent := {ACQUIRE}, frames := multiset{ACQUIRE});
      Take(0, w, Arrive(ACQUIRE, COMMAND)) == w.(node := BOUND, frames := multiset{}, answered := {GRANT})
  {
    AcquireIs(0, BLANK, 1, 1);
    assert AcquireOwner(BLANK, 0, 1, 1) == Delivered(BOUND, OwnerAcquired(1));
    hide Deliver, AcquireOwner;
  }

  lemma Owns()
    ensures
      var w := START.(node := BOUND, mem := ASKING, disk := ASKING, sent := {ACQUIRE}, answered := {GRANT});
      Take(0, w, ConfirmAcquire(1, Written)) == w.(mem := OWNED, disk := OWNED)
  {}

  lemma Books()
    ensures
      var w := START.(node := BOUND, mem := OWNED, disk := OWNED, sent := {ACQUIRE}, answered := {GRANT});
      Take(0, w, ReserveCommand(REQUEST, Written)) == READY
  {}

  lemma Unfolds(session: nat, w: World, move: Move, rest: seq<Move>)
    ensures Play(session, w, [move] + rest) == Play(session, Take(session, w, move), rest)
    ensures CarefulRun(session, w, [move] + rest) <==>
              Careful(w, move) && CarefulRun(session, Take(session, w, move), rest)
  {
    hide Take, Careful;
    assert ([move] + rest)[1..] == rest;
  }

  lemma SetsUp(rest: seq<Move>)
    ensures Play(0, START, SETUP + rest) == Play(0, READY, rest)
    ensures CarefulRun(0, START, SETUP + rest) <==> CarefulRun(0, READY, rest)
  {
    hide Play, CarefulRun, Take;
    var w1 := START.(mem := ASKING, disk := ASKING);
    var w2 := w1.(sent := {ACQUIRE}, frames := multiset{ACQUIRE});
    var w3 := w2.(node := BOUND, frames := multiset{}, answered := {GRANT});
    var w4 := w3.(mem := OWNED, disk := OWNED);
    var m4 := [ReserveCommand(REQUEST, Written)] + rest;
    var m3 := [ConfirmAcquire(1, Written)] + m4;
    var m2 := [Arrive(ACQUIRE, COMMAND)] + m3;
    var m1 := [SendAcquire] + m2;
    Asks();
    Binds();
    Owns();
    Books();
    Unfolds(0, START, BeginAcquire(1, Written), m1);
    Unfolds(0, w1, SendAcquire, m2);
    Unfolds(0, w2, Arrive(ACQUIRE, COMMAND), m3);
    Unfolds(0, w3, ConfirmAcquire(1, Written), m4);
    Unfolds(0, w4, ReserveCommand(REQUEST, Written), rest);
    assert SETUP + rest == [BeginAcquire(1, Written)] + m1;
  }

  /** The command was sent `k` times and none of the copies has arrived. */
  function Waiting(k: nat): World {
    READY.(tries := Some(k), frames := multiset{}[MESSAGE := k],
           sent := if k == 0 then {ACQUIRE} else {ACQUIRE, MESSAGE})
  }

  lemma SendsOne(k: nat)
    ensures Take(0, Waiting(k), SendCommand) == Waiting(k + 1) && Careful(Waiting(k), SendCommand)
  {}

  function Sends(k: nat): seq<Move> {
    if k == 0 then [] else [SendCommand] + Sends(k - 1)
  }

  lemma {:induction false} SendsAll(done: nat, k: nat, rest: seq<Move>)
    ensures Play(0, Waiting(done), Sends(k) + rest) == Play(0, Waiting(done + k), rest)
    ensures CarefulRun(0, Waiting(done), Sends(k) + rest) <==> CarefulRun(0, Waiting(done + k), rest)
    decreases k
  {
    hide Play, CarefulRun, Take, Careful, Waiting;
    if k == 0 {
      assert Sends(0) + rest == rest;
    } else {
      assert Sends(k) + rest == [SendCommand] + (Sends(k - 1) + rest);
      SendsOne(done);
      Unfolds(0, Waiting(done), SendCommand, Sends(k - 1) + rest);
      SendsAll(done + 1, k - 1, rest);
    }
  }

  /** One copy gets through and is executed, the next one meets a full queue. */
  function Overtaken(k: nat): World {
    Take(0, Take(0, Waiting(k), Arrive(MESSAGE, COMMAND)), TurnAway(MESSAGE))
  }

  lemma Executes1()
    ensures Executes(BOUND, ProposalFor(0, MESSAGE, COMMAND))
    ensures Deliver(BOUND, ProposalFor(0, MESSAGE, COMMAND)).Ok?
  {
    hide Exec;
  }

  lemma ArrivesOnce(n: nat, tries: nat)
    requires n >= 2
    ensures
      var w := Take(0, Waiting(n).(tries := Some(tries)), Arrive(MESSAGE, COMMAND));
      && w.executed == [Execution(ID, COMMAND, 0)] && w.mem == WAITING && w.disk == WAITING && w.tries == Some(tries)
      && MESSAGE in w.frames && w.acked == {}
      && RecordOf(0, w.node).Some? && RecordOf(0, w.node).value.epoch == 1
      && RecordOf(0, w.node).value.instance == Some(1)
      && RecordOf(0, w.node).value.last.Some? && RecordOf(0, w.node).value.last.value.sequence == 1
      && RecordOf(0, w.node).value.last.value.command == COMMAND
  {
    hide Exec;
    Executes1();
    ArrivedIs(0, Waiting(n).(tries := Some(tries)), MESSAGE, COMMAND);
  }

  /** The command was executed, and the client was just told that it was rejected. */
  lemma OvertakenIs(k: nat)
    requires k >= 2
    ensures
      var w := Overtaken(k);
      && w.executed == [Execution(ID, COMMAND, 0)] && w.mem == WAITING && w.disk == WAITING && w.tries == Some(k)
      && Answers(w, SATURATED) && w.acked == {}
      && RecordOf(0, w.node).Some? && RecordOf(0, w.node).value.epoch == 1
      && RecordOf(0, w.node).value.instance == Some(1)
      && RecordOf(0, w.node).value.last.Some? && RecordOf(0, w.node).value.last.value.sequence == 1
      && RecordOf(0, w.node).value.last.value.command == COMMAND
  {
    hide Arrived;
    assert Waiting(k).(tries := Some(k)) == Waiting(k);
    hide Waiting;
    ArrivesOnce(k, k);
  }

  function Overtaking(k: nat): seq<Move> {
    SETUP + (Sends(k) + [Arrive(MESSAGE, COMMAND), TurnAway(MESSAGE)])
  }

  lemma Overtakes(k: nat)
    ensures Initial(0, START) && CarefulRun(0, START, Overtaking(k)) && Play(0, START, Overtaking(k)) == Overtaken(k)
  {
    hide Take, Waiting, Sends;
    var last := [Arrive(MESSAGE, COMMAND), TurnAway(MESSAGE)];
    SetsUp(Sends(k) + last);
    assert READY == Waiting(0) by { ReadyWaits(); }
    SendsAll(0, k, last);
    var w := Waiting(k);
    Unfolds(0, w, Arrive(MESSAGE, COMMAND), [TurnAway(MESSAGE)]);
    Unfolds(0, Take(0, w, Arrive(MESSAGE, COMMAND)), TurnAway(MESSAGE), []);
    assert last == [Arrive(MESSAGE, COMMAND)] + [TurnAway(MESSAGE)];
    assert [TurnAway(MESSAGE)] == [TurnAway(MESSAGE)] + [];
  }

  lemma ReadyWaits()
    ensures Waiting(0) == READY
  {}

  /** On a network that repeats nothing by itself, a release after a rejection is safe exactly if the
      command was sent no more than once since it was reserved. */
  lemma ReleaseRule(k: nat)
    ensures SafeToRelease(k) <==> k <= 1
  {
    hide SafeToRelease, Overtaken, Play, CarefulRun, Overtaking;
    if k <= 1 {
      OnceIsSafe(k);
    } else {
      Overtakes(k);
      OvertakenIs(k);
      var end := Play(0, START, Overtaking(k));
      assert WasExecuted(end.executed, Flying(end.mem).value) by {
        assert Execution(ID, COMMAND, 0) in end.executed;
      }
      NotSafe(k, Overtaking(k));
    }
  }

  lemma NotSafe(k: nat, moves: seq<Move>)
    requires Initial(0, START) && CarefulRun(0, START, moves)
    requires
      var end := Play(0, START, moves);
      end.tries == Some(k) && Answers(end, SATURATED) && WasExecuted(end.executed, Flying(end.mem).value)
    ensures !SafeToRelease(k)
  {
    hide Play, CarefulRun, WasExecuted, Initial;
  }

  // ---- A network that repeats ----

  /** Careful moves, and repetitions by the network. */
  predicate RepeatedRun(session: nat, w: World, moves: seq<Move>)
    decreases |moves|
  {
    moves == [] ||
    ((moves[0].Duplicate? || Careful(w, moves[0])) && RepeatedRun(session, Take(session, w, moves[0]), moves[1..]))
  }

  ghost predicate SafeDespiteRepeats(k: nat) {
    forall session: nat, w: World, moves: seq<Move> {:trigger Play(session, w, moves)} ::
      Initial(session, w) && RepeatedRun(session, w, moves) ==>
        var end := Play(session, w, moves);
        end.tries == Some(k) && Answers(end, SATURATED) ==>
          !WasExecuted(end.executed, Flying(end.mem).value) && Flying(end.mem).value !in end.frames
  }

  lemma {:induction false} CarefulThenRepeated(session: nat, w: World, moves: seq<Move>, rest: seq<Move>)
    requires CarefulRun(session, w, moves) && RepeatedRun(session, Play(session, w, moves), rest)
    ensures RepeatedRun(session, w, moves + rest)
    ensures Play(session, w, moves + rest) == Play(session, Play(session, w, moves), rest)
    decreases |moves|
  {
    hide Take, Careful;
    if moves == [] {
      assert moves + rest == rest;
    } else {
      assert (moves + rest)[1..] == moves[1..] + rest;
      CarefulThenRepeated(session, Take(session, w, moves[0]), moves[1..], rest);
    }
  }

  /** Sent `k` times, repeated once by the network, executed, and then turned away. */
  const REPEATED := [Duplicate(MESSAGE), Arrive(MESSAGE, COMMAND), TurnAway(MESSAGE)]

  lemma RepeatsOne(k: nat)
    requires k > 0
    ensures
      var w := Take(0, Waiting(k), Duplicate(MESSAGE));
      w == Waiting(k + 1).(tries := Some(k))
  {
    hide Arrived, Deliver;
  }

  lemma RepeatedIsTold(k: nat)
    requires k > 0
    ensures
      var w := Play(0, Waiting(k), REPEATED);
      && w.executed == [Execution(ID, COMMAND, 0)] && w.mem == WAITING && w.tries == Some(k) && Answers(w, SATURATED)
      && RepeatedRun(0, Waiting(k), REPEATED)
  {
    hide Take, Waiting, Careful;
    RepeatsOne(k);
    var w0, w1 := Waiting(k), Waiting(k + 1).(tries := Some(k));
    var w2 := Take(0, w1, Arrive(MESSAGE, COMMAND));
    var w3 := Take(0, w2, TurnAway(MESSAGE));
    ArrivesRepeated(k);
    assert REPEATED[1..] == [Arrive(MESSAGE, COMMAND), TurnAway(MESSAGE)];
    assert REPEATED[1..][1..] == [TurnAway(MESSAGE)] && [TurnAway(MESSAGE)][1..] == [];
    assert Play(0, w2, [TurnAway(MESSAGE)]) == Play(0, w3, []);
    assert Play(0, w1, REPEATED[1..]) == Play(0, w2, [TurnAway(MESSAGE)]);
    assert RepeatedRun(0, w3, []) && RepeatedRun(0, w2, [TurnAway(MESSAGE)]) by { CarefulMoves(w2, TurnAway(MESSAGE)); }
    assert RepeatedRun(0, w1, REPEATED[1..]) by { CarefulMoves(w1, Arrive(MESSAGE, COMMAND)); }
  }

  lemma CarefulMoves(w: World, move: Move)
    requires move.Arrive? || move.TurnAway?
    ensures Careful(w, move)
  {}

  lemma ArrivesRepeated(k: nat)
    requires k > 0
    ensures
      var w1 := Waiting(k + 1).(tries := Some(k));
      var w := Take(0, Take(0, w1, Arrive(MESSAGE, COMMAND)), TurnAway(MESSAGE));
      && w.executed == [Execution(ID, COMMAND, 0)] && w.mem == WAITING && w.tries == Some(k) && Answers(w, SATURATED)
  {
    hide Arrived, Waiting;
    ArrivesOnce(k + 1, k);
  }

  /** Where the network may repeat a copy, no number of transmissions makes a release safe. */
  lemma RepeatsAreNeverSafe(k: nat)
    requires k > 0
    ensures !SafeDespiteRepeats(k)
  {
    hide Play, CarefulRun, RepeatedRun, Sends, Waiting, Take;
    var moves := SETUP + (Sends(k) + []);
    SetsUp(Sends(k) + []);
    ReadyWaits();
    SendsAll(0, k, []);
    assert CarefulRun(0, START, moves) && Play(0, START, moves) == Waiting(k) by { NothingLeft(Waiting(k)); }
    RepeatedIsTold(k);
    CarefulThenRepeated(0, START, moves, REPEATED);
    var end := Play(0, START, moves + REPEATED);
    assert Execution(ID, COMMAND, 0) in end.executed;
    assert WasExecuted(end.executed, Flying(end.mem).value);
  }

  lemma NothingLeft(w: World)
    ensures Play(0, w, []) == w && CarefulRun(0, w, [])
  {}

  // ---- The client as written ----

  /** The client as written believes the rejection. */
  function Forgotten(): World {
    Take(0, Overtaken(2), Receive(SATURATED, Written))
  }

  lemma Forgets()
    ensures
      var w := Forgotten();
      && MESSAGE in w.released && MESSAGE !in w.acked && w.executed == Overtaken(2).executed
      && w.node == Overtaken(2).node
      && w.mem == OWNED && w.disk == OWNED
  {
    hide Overtaken, Erase, Arrived, Deliver, Reserve;
    OvertakenIs(2);
  }

  lemma TakesOver(w: World)
    requires w.mem == OWNED
    ensures
      var again := Take(0, w, ReserveCommand(OTHER, Written));
      Flying(again.mem) == Some(CommandMsg(ID, OTHER, w.tickets)) && again.node == w.node
  {
    hide Arrived, Deliver, Received;
  }

  lemma Conflicts(n: Node)
    requires RecordOf(0, n).Some? && RecordOf(0, n).value.epoch == 1 && RecordOf(0, n).value.instance == Some(1)
    requires RecordOf(0, n).value.last.Some? && RecordOf(0, n).value.last.value.sequence == 1
    requires RecordOf(0, n).value.last.value.command == COMMAND
    ensures Judge(n.sessions, ID, EnsureNamespace(6, 10)) == Refuse(Conflict)
  {}

  /** The client as written releases whatever it is told was rejected.  Here that was executed, it is
      neither acknowledged nor known to be done, the next command takes over its identity, and the Broker
      refuses that command as a conflict. */
  lemma ExecutedYetReleased()
    ensures Initial(0, START)
    ensures
      var w := Take(0, Play(0, START, Overtaking(2)), Receive(SATURATED, Written));
      && MESSAGE in w.released && MESSAGE !in w.acked && WasExecuted(w.executed, MESSAGE)
      && w.mem == OWNED && w.disk == OWNED
      && var again := Take(0, w, ReserveCommand(OTHER, Written));
         Flying(again.mem) == Some(CommandMsg(ID, OTHER, w.tickets)) &&
         Judge(again.node.sessions, ID, EnsureNamespace(6, 10)) == Refuse(Conflict)
  {
    hide Overtaken, Take, Judge, Overtaking, Play;
    Overtakes(2);
    OvertakenIs(2);
    Forgets();
    TakesOver(Forgotten());
    Conflicts(Forgotten().node);
    assert Execution(ID, COMMAND, 0) in Forgotten().executed;
  }
}
