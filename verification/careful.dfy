/** When releasing a rejected command is safe.

    A server whose queue is full rejects a request without looking at it.  If an earlier copy of the same
    command got through, the client that believes the rejection forgets a command that was executed.
    A client that releases only what it sent exactly once, and sends nothing after the write of a release
    was lost, is safe from this on a network that repeats nothing by itself. */
module CarefulClient {
  import opened Order
  import opened BrokerState
  import opened Sessions
  import opened Client
  import opened ExactlyOnce
  import opened Served

  /** What the client can check for itself before it makes a move, and what is asked of the network. */
  predicate Careful(w: World, move: Move) {
    && !move.Duplicate?
    && (move.SendCommand? ==> FileFollows(w))
    && (move.Receive? && IsRejection(move.response) ==> w.tries == Some(1))
  }

  predicate CarefulRun(session: nat, w: World, moves: seq<Move>)
    decreases |moves|
  {
    moves == [] || (Careful(w, moves[0]) && CarefulRun(session, Take(session, w, moves[0]), moves[1..]))
  }

  // ---- What a careful client keeps ----

  /** A copy under way with the side's next identity is a copy of what it has in flight. */
  ghost predicate FramesMine(side: Side, frames: multiset<Message>) {
    forall m | m in frames && m.CommandMsg? && Current(side.store, m.id) :: Flying(side) == Some(m)
  }

  ghost predicate SideTidy(session: nat, side: Side, w: World) {
    LastMine(side, RecordOf(session, w.node), w.executed) && FramesMine(side, w.frames) &&
    (Flying(side).Some? ==> side.ticket < w.tickets)
  }

  ghost predicate Unanswered(answered: set<(Message, Response)>, m: Message) {
    forall a | a in answered :: a.0 != m
  }

  ghost predicate OneAnswer(answered: set<(Message, Response)>, m: Message) {
    forall a, b | a in answered && b in answered && a.0 == m && b.0 == m :: a == b
  }

  /** What was sent once is under way, or lost, or answered once. */
  ghost predicate TriesKnown(w: World) {
    Flying(w.mem).Some? && w.tries.Some? ==>
      var m := Flying(w.mem).value;
      && (w.tries.value == 0 ==> m !in w.frames && Unanswered(w.answered, m))
      && (w.tries.value == 1 ==>
              w.frames[m] <= 1 && (m in w.frames ==> Unanswered(w.answered, m)) && OneAnswer(w.answered, m))
  }

  ghost predicate TicketsFit(w: World) {
    && (forall m | m in w.sent && m.CommandMsg? :: m.ticket < w.tickets)
    && (forall a | a in w.answered :: a.0 in w.sent)
  }

  /** Executions and confirmations answer to each other, ticket by ticket. */
  ghost predicate Matched(w: World) {
    && (forall e | e in w.executed :: exists r :: Confirms(r) && (MessageOf(e), r) in w.answered)
    && (forall a | a in w.answered && a.0.CommandMsg? && Confirms(a.1) :: WasExecuted(w.executed, a.0))
    && (forall m, e | m in w.frames && e in w.executed && m.CommandMsg? && SameIdentity(m.id, e.id) ::
            MessageOf(e) == m)
    && (forall m | m in w.acked :: WasExecuted(w.executed, m))
  }

  /** A released command was not executed, no copy of it is under way, and it will not be sent again. */
  ghost predicate ReleasedGone(w: World) {
    forall m | m in w.released ::
      && m.CommandMsg? && m in w.sent && m !in w.frames && !WasExecuted(w.executed, m)
      && Flying(w.disk) != Some(m) && (Flying(w.mem) == Some(m) ==> w.mem != w.disk && !Spent(w.disk.store, m.id))
  }

  ghost predicate Tidy(session: nat, w: World) {
    && Invariant(session, w) && SideTidy(session, w.mem, w) && SideTidy(session, w.disk, w)
    && TriesKnown(w) && TicketsFit(w) && Matched(w) && ReleasedGone(w)
  }

  lemma InitialTidy(session: nat, w: World)
    requires Initial(session, w)
    ensures Tidy(session, w)
  {
    InitialFits(session, w);
  }

  // ---- Moves that touch only the stores ----

  lemma CrashTidy(session: nat, w: World)
    requires Tidy(session, w)
    ensures Tidy(session, w.(mem := w.disk, tries := None))
  {
    CrashKeeps(session, w);
    CountersKeep(session, w.(mem := w.disk), w.tickets, None);
    hide Invariant, LastMine, FramesMine, Matched, TicketsFit, WasExecuted;
  }

  lemma PersistTidy(session: nat, w: World, wanted: Result<Store, StoreError>, ticket: nat, io: Write)
    requires Tidy(session, w) && Invariant(session, Persist(w, wanted, ticket, io))
    requires wanted.Ok? ==> SideTidy(session, Side(wanted.value, ticket), w) && wanted.value.inFlight.None?
    requires Flying(w.mem).Some? && Flying(w.mem).value in w.released && wanted.Ok? ==>
               !Spent(wanted.value, Flying(w.mem).value.id)
    ensures Tidy(session, Persist(w, wanted, ticket, io))
  {
    hide Invariant, LastMine, FramesMine, WasExecuted;
  }

  lemma BeginIdle(session: nat, w: World, instance: nat)
    requires SideTidy(session, w.mem, w) && Begin(w.mem.store, instance).Ok?
    ensures SideTidy(session, Side(Begin(w.mem.store, instance).value, w.mem.ticket), w)
  {}

  lemma ConfirmIdle(session: nat, w: World, epoch: nat)
    requires Invariant(session, w) && Granted(w, epoch) && Confirm(w.mem.store, epoch).Ok?
    ensures SideTidy(session, Side(Confirm(w.mem.store, epoch).value, w.mem.ticket), w)
  {
    Parts(session, w);
    GrantIsTrue(session, w, epoch);
    ConfirmFits(session, w, w.mem.store, epoch);
    var side := Side(Confirm(w.mem.store, epoch).value, w.mem.ticket);
    hide AnswersTrue, HistoryFits, Ahead, Erase;
    forall m | m in w.frames && m.CommandMsg? ensures !Current(side.store, m.id) {
      assert MessageFits(session, w.mem.store, m);
    }
  }

  lemma AcknowledgeIdle(session: nat, w: World, id: Identity)
    requires Invariant(session, w) && Acknowledge(w.mem.store, id).Ok? && Recorded(RecordOf(session, w.node), id)
    ensures SideTidy(session, Side(Acknowledge(w.mem.store, id).value, w.mem.ticket), w)
  {
    Parts(session, w);
    var side := Side(Acknowledge(w.mem.store, id).value, w.mem.ticket);
    hide AnswersTrue, HistoryFits, Ahead, Erase;
    forall m | m in w.frames && m.CommandMsg? ensures !Current(side.store, m.id) {
      assert MessageFits(session, w.mem.store, m);
    }
  }

  /** What was sent once and then rejected was not executed, and no copy of it is left. */
  lemma RejectedOnce(session: nat, w: World, response: Response)
    requires TriesKnown(w) && Matched(w) && Answers(w, response) && IsRejection(response) && w.tries == Some(1)
    ensures !WasExecuted(w.executed, Flying(w.mem).value) && Flying(w.mem).value !in w.frames
  {}

  lemma ReleaseIdle(session: nat, w: World, response: Response)
    requires Tidy(session, w) && Answers(w, response) && IsRejection(response) && w.tries == Some(1)
    requires Release(w.mem.store, Flying(w.mem).value.id).Ok?
    ensures SideTidy(session, Side(Release(w.mem.store, Flying(w.mem).value.id).value, w.mem.ticket), w)
  {
    RejectedOnce(session, w, response);
    hide Invariant, Matched, TicketsFit, ReleasedGone, TriesKnown, Erase;
  }

  lemma AckedTidy(session: nat, w: World, msg: Message)
    requires Tidy(session, w) && WasExecuted(w.executed, msg) && Invariant(session, w.(acked := w.acked + {msg}))
    ensures Tidy(session, w.(acked := w.acked + {msg}))
  {
    hide Invariant, LastMine, FramesMine, WasExecuted;
  }

  lemma ReleasedTidy(session: nat, w: World, msg: Message)
    requires Tidy(session, w) && Invariant(session, w.(released := w.released + {msg}))
    requires msg.CommandMsg? && msg in w.sent && msg !in w.frames && !WasExecuted(w.executed, msg)
    requires Flying(w.disk) != Some(msg)
    requires Flying(w.mem) == Some(msg) ==> w.mem != w.disk && !Spent(w.disk.store, msg.id)
    ensures Tidy(session, w.(released := w.released + {msg}))
  {
    hide Invariant, LastMine, FramesMine, WasExecuted;
  }

  lemma ConfirmedTidy(session: nat, w: World, response: Response, io: Write)
    requires Tidy(session, w) && Answers(w, response) && Confirms(response)
    ensures
      var msg := Flying(w.mem).value;
      Tidy(session, Settled(w, msg, Acknowledge(w.mem.store, msg.id), true, io))
  {
    hide Invariant, SideTidy, TriesKnown, TicketsFit, Matched, ReleasedGone, WasExecuted, Fits, Ahead, HistoryFits,
      AnswersTrue, Done, Recorded, ValidStore, Erase, Tidy, Confirms, Acknowledge;
    TidyParts(session, w);
    var msg := Flying(w.mem).value;
    var wanted := Acknowledge(w.mem.store, msg.id);
    Parts(session, w);
    AnswerIsTrue(session, w, response);
    AckedAre(session, w);
    MatchedAnswer(w, msg, response);
    if wanted.Ok? {
      AcknowledgeFits(session, w, w.mem.store, msg.id);
      AcknowledgeIdle(session, w, msg.id);
      AcknowledgeLands(w.mem.store, msg.id);
    }
    PersistKeeps(session, w, wanted, w.mem.ticket, io);
    PersistTidy(session, w, wanted, w.mem.ticket, io);
    var w' := Persist(w, wanted, w.mem.ticket, io);
    AckedKeeps(session, w', w.acked + {msg}, w.released);
    AckedTidy(session, w', msg);
  }

  lemma AcknowledgeLands(st: Store, id: Identity)
    requires Acknowledge(st, id).Ok?
    ensures Acknowledge(st, id).value.inFlight.None?
  {}

  lemma TidyParts(session: nat, w: World)
    requires Tidy(session, w)
    ensures Invariant(session, w) && SideTidy(session, w.mem, w) && SideTidy(session, w.disk, w)
    ensures TriesKnown(w) && TicketsFit(w) && Matched(w) && ReleasedGone(w)
  {}

  lemma MatchedAnswer(w: World, msg: Message, response: Response)
    requires Matched(w) && msg.CommandMsg? && (msg, response) in w.answered && Confirms(response)
    ensures WasExecuted(w.executed, msg)
  {}

  lemma RejectedTidy(session: nat, w: World, response: Response, io: Write)
    requires Tidy(session, w) && Answers(w, response) && IsRejection(response) && w.tries == Some(1) && !io.LostBefore?
    requires Release(w.mem.store, Flying(w.mem).value.id).Ok?
    ensures
      var msg := Flying(w.mem).value;
      Tidy(session, Settled(w, msg, Release(w.mem.store, msg.id), false, io))
  {
    var msg := Flying(w.mem).value;
    var wanted := Release(w.mem.store, msg.id);
    Parts(session, w);
    RejectedOnce(session, w, response);
    ReleaseFits(session, w, w.mem.store, msg.id);
    ReleaseIdle(session, w, response);
    AckedAre(session, w);
    assert msg in w.sent by { assert TicketsFit(w); }
    hide Invariant, SideTidy, TriesKnown, TicketsFit, Matched, ReleasedGone, WasExecuted, Fits, Ahead, HistoryFits,
      AnswersTrue, Done, ValidStore, Erase, Tidy;
    PersistKeeps(session, w, wanted, w.mem.ticket, io);
    PersistTidy(session, w, wanted, w.mem.ticket, io);
    var w' := Persist(w, wanted, w.mem.ticket, io);
    AckedKeeps(session, w', w.acked, w.released + {msg});
    ReleasedTidy(session, w', msg);
  }

  lemma BookedSide(session: nat, w: World, request: Command)
    requires SideTidy(session, w.mem, w) && Reserve(session, w.mem.store, request).Ok?
    ensures SideTidy(session, Side(Reserve(session, w.mem.store, request).value, w.tickets),
                     w.(tickets := w.tickets + 1))
  {}

  lemma LaterTickets(session: nat, w: World, side: Side)
    requires SideTidy(session, side, w)
    ensures SideTidy(session, side, w.(tickets := w.tickets + 1))
  {}

  lemma BookedTries(session: nat, w: World, request: Command, io: Write)
    requires Invariant(session, w) && TriesKnown(w) && TicketsFit(w)
    ensures TriesKnown(Booked(session, w, request, io))
  {
    FramesAreSent(session, w);
    hide Invariant, Erase;
  }

  lemma ReserveTidy(session: nat, w: World, request: Command, io: Write)
    requires Tidy(session, w) && Erase(request) == request
    ensures Tidy(session, Booked(session, w, request, io))
  {
    hide Invariant, Erase, WasExecuted, LastMine, FramesMine, TriesKnown, Unanswered, OneAnswer;
    ReserveKeeps(session, w, request, io);
    BookedTries(session, w, request, io);
    LaterTickets(session, w, w.mem);
    LaterTickets(session, w, w.disk);
    if Reserve(session, w.mem.store, request).Ok? {
      BookedSide(session, w, request);
    }
  }

  // ---- Moves of the network and the Broker ----

  lemma SideShrinks(session: nat, side: Side, w: World, w': World)
    requires SideTidy(session, side, w) && w'.frames <= w.frames && w'.executed == w.executed && w'.tickets == w.tickets
    requires RecordOf(session, w'.node) == RecordOf(session, w.node) ||
             (RecordOf(session, w'.node).Some? && RecordOf(session, w'.node).value.last.None?)
    ensures SideTidy(session, side, w')
  {}

  /** One more answer to a message that was under way. */
  lemma TriesAnswered(w: World, w': World, msg: Message, r: Response)
    requires TriesKnown(w) && msg in w.frames
    requires w'.mem == w.mem && w'.tries == w.tries && w'.frames == w.frames - multiset{msg}
    requires w'.answered == w.answered + {(msg, r)}
    ensures TriesKnown(w')
  {}

  lemma MakeTidy(session: nat, w: World)
    requires Invariant(session, w) && SideTidy(session, w.mem, w) && SideTidy(session, w.disk, w)
    requires TriesKnown(w) && TicketsFit(w) && Matched(w) && ReleasedGone(w)
    ensures Tidy(session, w)
  {}

  lemma SentSide(session: nat, side: Side, w: World, m: Message)
    requires SideTidy(session, side, w) && (m.CommandMsg? && Current(side.store, m.id) ==> Flying(side) == Some(m))
    ensures SideTidy(session, side, Sent(w, m))
  {
    hide LastMine, Current;
  }

  lemma SentMatched(w: World, m: Message)
    requires Matched(w)
    requires m.CommandMsg? ==> forall e | e in w.executed && SameIdentity(m.id, e.id) :: MessageOf(e) == m
    ensures Matched(Sent(w, m))
  {
    hide WasExecuted, Confirms, MessageOf;
  }

  lemma SentReleased(w: World, m: Message)
    requires ReleasedGone(w) && m !in w.released
    ensures ReleasedGone(Sent(w, m))
  {
    hide WasExecuted;
  }

  lemma SendAcquireTidy(session: nat, w: World, m: Message)
    requires Tidy(session, w) && m.AcquireMsg? && Invariant(session, Sent(w, m))
    ensures Tidy(session, Sent(w, m))
  {
    TidyParts(session, w);
    SentSide(session, w.mem, w, m);
    SentSide(session, w.disk, w, m);
    SentMatched(w, m);
    SentReleased(w, m);
    hide Invariant, SideTidy, Matched, ReleasedGone, Tidy;
    MakeTidy(session, Sent(w, m));
  }

  lemma SendTries(w: World, w': World)
    requires TriesKnown(w) && Flying(w.mem).Some? && w'.mem == w.mem && w'.answered == w.answered
    requires w'.frames == w.frames + multiset{Flying(w.mem).value}
    requires w'.tries == if w.tries.Some? then Some(w.tries.value + 1) else None
    ensures TriesKnown(w')
  {}

  /** Tries are bookkeeping for every predicate but their own. */
  lemma TriesOnly(session: nat, w: World, w': World)
    requires w' == w.(tries := w'.tries) && SideTidy(session, w.mem, w) && SideTidy(session, w.disk, w)
    requires TicketsFit(w) && Matched(w) && ReleasedGone(w)
    ensures SideTidy(session, w'.mem, w') && SideTidy(session, w'.disk, w') && TicketsFit(w') && Matched(w')
    ensures ReleasedGone(w')
  {
    hide LastMine, FramesMine, WasExecuted;
  }

  lemma FlyingNotReleased(session: nat, w: World)
    requires Tidy(session, w) && Flying(w.mem).Some? && FileFollows(w)
    ensures Flying(w.mem).value !in w.released && Flying(w.mem).value.ticket < w.tickets
    ensures LastMine(w.mem, RecordOf(session, w.node), w.executed)
  {
    hide Invariant, LastMine, FramesMine, TriesKnown, TicketsFit, Matched, WasExecuted, Spent;
  }

  lemma SendCommandTidy(session: nat, w: World)
    requires Tidy(session, w) && Flying(w.mem).Some? && FileFollows(w)
    requires Invariant(session, Transmitted(w))
    ensures Tidy(session, Transmitted(w))
  {
    hide Invariant, SideTidy, Matched, ReleasedGone, Tidy, TriesKnown, SameIdentity, MessageOf, LastMine, Current,
      Spent;
    var m := Flying(w.mem).value;
    TidyParts(session, w);
    FlyingNotReleased(session, w);
    forall e | e in w.executed && SameIdentity(m.id, e.id) ensures MessageOf(e) == m {
      IdentitySymmetric(m.id, e.id);
      ExecutedIsFlying(session, w, e);
    }
    SentSide(session, w.mem, w, m);
    if w.disk != w.mem {
      SpentNotCurrent(w.disk.store, m.id);
    }
    SentSide(session, w.disk, w, m);
    SentMatched(w, m);
    SentReleased(w, m);
    var w' := Transmitted(w);
    TriesOnly(session, Sent(w, m), w');
    SendTries(w, w');
    MakeTidy(session, w');
  }

  /** One more answer, which confirms nothing or confirms what was executed. */
  lemma AnsweredMatched(w: World, w': World, msg: Message, r: Response)
    requires Matched(w) && (msg.CommandMsg? && Confirms(r) ==> WasExecuted(w.executed, msg))
    requires w'.executed == w.executed && w'.acked == w.acked && w'.frames == w.frames - multiset{msg}
    requires w'.answered == w.answered + {(msg, r)}
    ensures Matched(w')
  {
    hide WasExecuted, Confirms, MessageOf;
  }

  lemma AnsweredReleased(w: World, w': World, msg: Message)
    requires ReleasedGone(w) && w'.frames == w.frames - multiset{msg} && w'.executed == w.executed
    requires w'.mem == w.mem && w'.disk == w.disk && w'.sent == w.sent && w'.released == w.released
    ensures ReleasedGone(w')
  {
    hide WasExecuted;
  }

  /** A message under way is answered and nothing is executed. */
  lemma AnsweredTidy(session: nat, w: World, w': World, msg: Message, r: Response)
    requires Tidy(session, w) && Invariant(session, w') && msg in w.frames
    requires w' == w.(node := w'.node, frames := w.frames - multiset{msg}, answered := w.answered + {(msg, r)})
    requires RecordOf(session, w'.node) == RecordOf(session, w.node) ||
             (RecordOf(session, w'.node).Some? && RecordOf(session, w'.node).value.last.None?)
    requires msg.CommandMsg? && Confirms(r) ==> WasExecuted(w.executed, msg)
    ensures Tidy(session, w')
  {
    TidyParts(session, w);
    FramesAreSent(session, w);
    assert TicketsFit(w');
    hide Invariant, WasExecuted, SideTidy, TriesKnown, Matched, ReleasedGone, Tidy, TicketsFit;
    SideShrinks(session, w.mem, w, w');
    SideShrinks(session, w.disk, w, w');
    TriesAnswered(w, w', msg, r);
    AnsweredMatched(w, w', msg, r);
    AnsweredReleased(w, w', msg);
    MakeTidy(session, w');
  }

  lemma OthersTidy(session: nat, w: World, n: Node)
    requires Tidy(session, w) && RecordOf(session, n) == RecordOf(session, w.node) && Invariant(session, w.(node := n))
    ensures Tidy(session, w.(node := n))
  {
    SideShrinks(session, w.mem, w, w.(node := n));
    SideShrinks(session, w.disk, w, w.(node := n));
    hide Invariant, WasExecuted, SideTidy;
  }

  // ---- An execution ----

  lemma ExecutedSide(session: nat, side: Side, w: World, w': World, msg: Message, c: Command, r: Response)
    requires SideTidy(session, side, w) && MessageFits(session, side.store, msg) && msg in w.frames && msg.CommandMsg?
    requires Erase(c) == msg.request && !Spent(side.store, msg.id)
    requires RecordOf(session, w'.node) ==
               Some(Record(msg.id.epoch, msg.id.instance, Some(Last(msg.id.sequence, c, r))))
    requires w'.executed == w.executed + [Execution(msg.id, c, msg.ticket)]
    requires w'.frames == w.frames - multiset{msg} && w'.tickets == w.tickets
    ensures SideTidy(session, side, w') && Flying(side) == Some(msg)
  {
    var e := Execution(msg.id, c, msg.ticket);
    assert w'.executed[|w.executed|] == e;
    assert e in w'.executed && MessageOf(e) == msg;
    hide Erase;
  }

  lemma ExecutedMatched(w: World, w': World, e: Execution, r: Response)
    requires Matched(w) && Confirms(r) && w'.executed == w.executed + [e] && w'.acked == w.acked
    requires w'.frames == w.frames - multiset{MessageOf(e)} && w'.answered == w.answered + {(MessageOf(e), r)}
    requires forall m | m in w.frames && m.CommandMsg? && SameIdentity(m.id, e.id) :: m == MessageOf(e)
    ensures Matched(w')
  {
    forall x | x in w'.executed ensures exists q :: Confirms(q) && (MessageOf(x), q) in w'.answered {
      if x in w.executed {
        var q :| Confirms(q) && (MessageOf(x), q) in w.answered;
        assert (MessageOf(x), q) in w'.answered;
      } else {
        assert x == e && (MessageOf(x), r) in w'.answered;
      }
    }
    forall m | WasExecuted(w.executed, m) ensures WasExecuted(w'.executed, m) {
      var x :| x in w.executed && MessageOf(x) == m;
      assert x in w'.executed;
    }
    assert w'.executed[|w.executed|] == e;
    assert e in w'.executed;
    hide Confirms, MessageOf;
  }

  lemma ExecutedReleased(w: World, w': World, e: Execution)
    requires ReleasedGone(w) && MessageOf(e) in w.frames && w'.executed == w.executed + [e]
    requires w'.frames == w.frames - multiset{MessageOf(e)}
    requires w'.mem == w.mem && w'.disk == w.disk && w'.sent == w.sent && w'.released == w.released
    ensures ReleasedGone(w')
  {
    forall m | m in w'.released ensures !WasExecuted(w'.executed, m) {
      assert m != MessageOf(e);
      assert forall x | x in w'.executed :: x in w.executed || x == e;
    }
    hide MessageOf, WasExecuted;
  }

  /** The only copies under way with the executed identity are copies of the executed message. */
  lemma FramesAgree(session: nat, side: Side, w: World, msg: Message)
    requires FramesMine(side, w.frames) && NetworkFits(session, side.store, w.sent)
    requires forall m | m in w.frames :: m in w.sent
    requires msg in w.frames && msg.CommandMsg? && !Spent(side.store, msg.id)
    ensures forall m | m in w.frames && m.CommandMsg? && SameIdentity(m.id, msg.id) :: m == msg
  {
    assert MessageFits(session, side.store, msg);
    forall m | m in w.frames && m.CommandMsg? && SameIdentity(m.id, msg.id) ensures m == msg {
      assert MessageFits(session, side.store, m);
    }
    hide Erase;
  }

  lemma ExecutedTidy(session: nat, w: World, w': World, msg: Message, c: Command, r: Response)
    requires Tidy(session, w) && Invariant(session, w') && msg in w.frames && msg.CommandMsg? && Erase(c) == msg.request
    requires !Spent(w.mem.store, msg.id) && !Spent(w.disk.store, msg.id) && Confirms(r)
    requires w' == w.(node := w'.node, frames := w.frames - multiset{msg}, answered := w.answered + {(msg, r)},
                      executed := w.executed + [Execution(msg.id, c, msg.ticket)])
    requires RecordOf(session, w'.node) ==
               Some(Record(msg.id.epoch, msg.id.instance, Some(Last(msg.id.sequence, c, r))))
    ensures Tidy(session, w')
  {
    TidyParts(session, w);
    Parts(session, w);
    FramesAreSent(session, w);
    assert MessageFits(session, w.mem.store, msg) && MessageFits(session, w.disk.store, msg);
    assert TicketsFit(w');
    FramesAgree(session, w.mem, w, msg);
    hide Invariant, WasExecuted, SideTidy, TriesKnown, Matched, ReleasedGone, Tidy, TicketsFit, Fits, AnswersTrue,
      HistoryFits, Ahead, ValidStore, Erase, Spent, MessageFits, SameIdentity;
    ExecutedSide(session, w.mem, w, w', msg, c, r);
    ExecutedSide(session, w.disk, w, w', msg, c, r);
    TriesAnswered(w, w', msg, r);
    ExecutedMatched(w, w', Execution(msg.id, c, msg.ticket), r);
    ExecutedReleased(w, w', Execution(msg.id, c, msg.ticket));
    MakeTidy(session, w');
  }

  lemma ArriveCommandTidy(session: nat, w: World, msg: Message, c: Command)
    requires Tidy(session, w) && CanArrive(w, msg, c) && msg.CommandMsg?
    ensures Tidy(session, Arrived(session, w, msg, c))
  {
    var p := ProposalFor(session, msg, c);
    TidyParts(session, w);
    Parts(session, w);
    FramesAreSent(session, w);
    ArriveKeeps(session, w, msg, c);
    assert MessageFits(session, w.mem.store, msg) && MessageFits(session, w.disk.store, msg);
    Outcomes(w.node, p);
    ArrivedIs(session, w, msg, c);
    var w', r := Arrived(session, w, msg, c), Deliver(w.node, p).value.response;
    hide Invariant, SideTidy, TriesKnown, Matched, ReleasedGone, Tidy, TicketsFit, Deliver, Arrived, Judge, Executes,
      HistoryFits, Ahead, AnswersTrue, View, NetworkFits, Spent, Erase, WasExecuted, SameRequest;
    if Executes(w.node, p) {
      ExecutesJudged(w.node, p);
      if Spent(w.mem.store, msg.id) {
        SpentNotExecuted(session, w.mem.store, w.node, msg.id, c);
      }
      if Spent(w.disk.store, msg.id) {
        SpentNotExecuted(session, w.disk.store, w.node, msg.id, c);
      }
      ExecutedTidy(session, w, w', msg, c, r);
    } else {
      if Confirms(r) {
        RepeatedIs(w.node, p);
        RepeatedWasExecuted(session, w, msg);
      }
      AnsweredTidy(session, w, w', msg, r);
    }
  }

  lemma RepeatedWasExecuted(session: nat, w: World, msg: Message)
    requires HistoryFits(session, w) && Matched(w) && msg in w.frames && msg.CommandMsg? && msg.id.session == session
    requires session in w.node.sessions && w.node.sessions[session].last.Some?
    requires w.node.sessions[session].epoch == msg.id.epoch && w.node.sessions[session].instance == msg.id.instance
    requires w.node.sessions[session].last.value.sequence == msg.id.sequence
    ensures WasExecuted(w.executed, msg)
  {
    var e :| e in w.executed && e.id == msg.id;
    assert SameIdentity(msg.id, e.id);
  }

  lemma ArriveAcquireTidy(session: nat, w: World, msg: Message, c: Command)
    requires Tidy(session, w) && CanArrive(w, msg, c) && msg.AcquireMsg?
    ensures Tidy(session, Arrived(session, w, msg, c))
  {
    TidyParts(session, w);
    Parts(session, w);
    FramesAreSent(session, w);
    ArriveKeeps(session, w, msg, c);
    assert MessageFits(session, w.mem.store, msg);
    AcquireIs(session, w.node, msg.expected, msg.instance);
    AcquireClears(session, w.node, msg.expected, msg.instance);
    ArrivedIs(session, w, msg, c);
    hide Invariant, Tidy, Deliver, Arrived, AcquireOwner;
    AnsweredTidy(session, w, Arrived(session, w, msg, c), msg,
                 AcquireOwner(w.node, session, msg.expected, msg.instance).response);
  }

  lemma ReceiveTidy(session: nat, w: World, response: Response, io: Write)
    requires Tidy(session, w) && (IsRejection(response) ==> w.tries == Some(1))
    ensures Tidy(session, Received(w, response, io))
  {
    hide Tidy, Settled, Acknowledge, Release;
    if Answers(w, response) {
      if Confirms(response) {
        ConfirmedTidy(session, w, response, io);
      } else if IsRejection(response) {
        ReleasingTidy(session, w, response, io);
      }
    }
  }

  lemma ReleasingTidy(session: nat, w: World, response: Response, io: Write)
    requires Tidy(session, w) && Answers(w, response) && IsRejection(response) && w.tries == Some(1)
    ensures
      var msg := Flying(w.mem).value;
      Tidy(session, Settled(w, msg, Release(w.mem.store, msg.id), false, io))
  {
    hide Tidy;
    if Release(w.mem.store, Flying(w.mem).value.id).Ok? && !io.LostBefore? {
      RejectedTidy(session, w, response, io);
    }
  }

  lemma BeginTidy(session: nat, w: World, instance: nat, io: Write)
    requires Tidy(session, w)
    ensures Tidy(session, Persist(w, Begin(w.mem.store, instance), w.mem.ticket, io))
  {
    TidyParts(session, w);
    hide Tidy, Invariant, SideTidy, Persist, TriesKnown, TicketsFit, Matched, ReleasedGone;
    BeginKeeps(session, w, instance, io);
    if Begin(w.mem.store, instance).Ok? {
      BeginIdle(session, w, instance);
    }
    PersistTidy(session, w, Begin(w.mem.store, instance), w.mem.ticket, io);
  }

  lemma ConfirmTidy(session: nat, w: World, epoch: nat, io: Write)
    requires Tidy(session, w) && Granted(w, epoch)
    ensures Tidy(session, Persist(w, Confirm(w.mem.store, epoch), w.mem.ticket, io))
  {
    TidyParts(session, w);
    hide Tidy, Invariant, SideTidy, Persist, TriesKnown, TicketsFit, Matched, ReleasedGone, Granted;
    ConfirmKeeps(session, w, epoch, io);
    if Confirm(w.mem.store, epoch).Ok? {
      ConfirmIdle(session, w, epoch);
    }
    PersistTidy(session, w, Confirm(w.mem.store, epoch), w.mem.ticket, io);
  }

  lemma OtherTidy(session: nat, w: World, p: Proposal)
    requires Tidy(session, w) && Foreign(session, p) && Deliver(w.node, p).Ok?
    ensures Tidy(session, w.(node := Deliver(w.node, p).value.n))
  {
    TidyParts(session, w);
    ForeignKeepsRecord(session, w.node, p);
    hide Tidy, Invariant, Deliver, Foreign, SideTidy, TriesKnown, TicketsFit, Matched, ReleasedGone;
    OthersKeep(session, w, p);
    OthersTidy(session, w, Deliver(w.node, p).value.n);
  }

  lemma TurnAwayTidy(session: nat, w: World, msg: Message)
    requires Tidy(session, w) && msg in w.frames
    ensures Tidy(session, w.(frames := w.frames - multiset{msg}, answered := w.answered + {(msg, SATURATED)}))
  {
    TidyParts(session, w);
    FramesAreSent(session, w);
    hide Tidy, Invariant, SideTidy, TriesKnown, TicketsFit, Matched, ReleasedGone, WasExecuted;
    var w' := w.(frames := w.frames - multiset{msg}, answered := w.answered + {(msg, SATURATED)});
    TurnAwayKeeps(session, w, msg);
    AnsweredTidy(session, w, w', msg, SATURATED);
  }

  /** Every careful move keeps the world tidy. */
  lemma TakeTidy(session: nat, w: World, move: Move)
    requires Tidy(session, w) && Careful(w, move)
    ensures Tidy(session, Take(session, w, move))
  {
    TidyParts(session, w);
    hide Tidy, Invariant, SideTidy, TriesKnown, TicketsFit, Matched, ReleasedGone, Persist, Confirm, Begin, Booked,
      Received, Arrived, CanArrive, Deliver, Erase, Foreign, Granted, Sent, Transmitted, IsRejection, MessageFits;
    match move
    case Crash => CrashTidy(session, w);
    case BeginAcquire(instance, io) => BeginTidy(session, w, instance, io);
    case ConfirmAcquire(epoch, io) => if Granted(w, epoch) { ConfirmTidy(session, w, epoch, io); }
    case ReserveCommand(request, io) => if Erase(request) == request { ReserveTidy(session, w, request, io); }
    case SendAcquire =>
      if w.mem.store.pending.Some? {
        var m := AcquireMsg(w.mem.store.pending.value.expected, w.mem.store.pending.value.instance);
        PendingFits(session, w);
        SentKeeps(session, w, m);
        SendAcquireTidy(session, w, m);
      }
    case SendCommand =>
      if Flying(w.mem).Some? {
        TransmitKeeps(session, w);
        SendCommandTidy(session, w);
      }
    case Receive(response, io) => ReceiveTidy(session, w, response, io);
    case Arrive(msg, c) =>
      if CanArrive(w, msg, c) {
        if msg.CommandMsg? { ArriveCommandTidy(session, w, msg, c); } else { ArriveAcquireTidy(session, w, msg, c); }
      }
    case TurnAway(msg) => if msg in w.frames { TurnAwayTidy(session, w, msg); }
    case Others(p) => if Foreign(session, p) && Deliver(w.node, p).Ok? { OtherTidy(session, w, p); }
  }

  lemma {:induction false} PlayTidy(session: nat, w: World, moves: seq<Move>)
    requires Tidy(session, w) && CarefulRun(session, w, moves)
    ensures Tidy(session, Play(session, w, moves))
    decreases |moves|
  {
    hide Tidy, Take, Careful;
    if moves != [] {
      TakeTidy(session, w, moves[0]);
      PlayTidy(session, Take(session, w, moves[0]), moves[1..]);
    }
  }

  // ---- What a careful client can rely on ----

  /** Exactly once, reservation by reservation, over every run of a careful client on a network that
      repeats nothing by itself: every acknowledged reservation was executed, no identity and hence no
      reservation was executed twice, a released one was not executed and no copy of it is left to be,
      and the one in flight is never refused by the Broker. */
  lemma ExactlyOnceCareful(session: nat, w: World, moves: seq<Move>)
    requires Initial(session, w) && CarefulRun(session, w, moves)
    ensures
      var end := Play(session, w, moves);
      && (forall m | m in end.acked :: WasExecuted(end.executed, m))
      && (forall i, j | 0 <= i < j < |end.executed| ::
            !SameIdentity(end.executed[i].id, end.executed[j].id) &&
            MessageOf(end.executed[i]) != MessageOf(end.executed[j]))
      && (forall m | m in end.released :: !WasExecuted(end.executed, m) && m !in end.frames)
      && (forall c: Command | Flying(end.mem).Some? && Erase(c) == Flying(end.mem).value.request ::
            !Judge(end.node.sessions, Flying(end.mem).value.id, c).Refuse?)
  {
    InitialTidy(session, w);
    PlayTidy(session, w, moves);
    var end := Play(session, w, moves);
    TidyParts(session, end);
    Parts(session, end);
    forall c: Command | Flying(end.mem).Some? && Erase(c) == Flying(end.mem).value.request
      ensures !Judge(end.node.sessions, Flying(end.mem).value.id, c).Refuse?
    {
      FlyingNotRefused(session, end.mem, end, c);
    }
    hide Play, CarefulRun, Judge, Erase, WasExecuted, TriesKnown, TicketsFit, SideTidy, Fits, AnswersTrue, Ahead;
  }

  /** In every careful run on a network that repeats nothing by itself, what was sent `k` times and is then
      turned away was not executed and has no copy under way. */
  ghost predicate SafeToRelease(k: nat) {
    forall session: nat, w: World, moves: seq<Move> {:trigger Play(session, w, moves)} ::
      Initial(session, w) && CarefulRun(session, w, moves) ==>
        var end := Play(session, w, moves);
        end.tries == Some(k) && Answers(end, SATURATED) ==>
          !WasExecuted(end.executed, Flying(end.mem).value) && Flying(end.mem).value !in end.frames
  }

  lemma OnceIsSafe(k: nat)
    requires k <= 1
    ensures SafeToRelease(k)
  {
    hide Play, CarefulRun, Tidy, Invariant, SideTidy, Matched, ReleasedGone, TicketsFit, WasExecuted, Initial;
    forall session: nat, w: World, moves: seq<Move> {:trigger Play(session, w, moves)}
      | Initial(session, w) && CarefulRun(session, w, moves)
      ensures
        var end := Play(session, w, moves);
        end.tries == Some(k) && Answers(end, SATURATED) ==>
          !WasExecuted(end.executed, Flying(end.mem).value) && Flying(end.mem).value !in end.frames
    {
      InitialTidy(session, w);
      PlayTidy(session, w, moves);
      var end := Play(session, w, moves);
      TidyParts(session, end);
      if end.tries == Some(1) && Answers(end, SATURATED) {
        RejectedOnce(session, end, SATURATED);
      }
    }
  }
}
