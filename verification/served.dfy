/** Exactly-once execution for the client as it is written: it holds in every run in which the client is
    not told that a server turned its command away, whatever crashes, lost writes, losses, repetitions
    and delays there are; and such an answer is the only thing that ever makes it release a command. */
module Served {
  import opened Order
  import opened BrokerState
  import opened BrokerMachine
  import opened Sessions
  import opened Client
  import opened ExactlyOnce

  /** The client takes in the answer of a full queue to the command in flight, and its file is written. */
  predicate ToldNo(w: World, move: Move) {
    move.Receive? && move.response == SATURATED && Answers(w, SATURATED) && !move.io.LostBefore?
  }

  predicate NeverToldNo(session: nat, w: World, moves: seq<Move>)
    decreases |moves|
  {
    moves == [] || (!ToldNo(w, moves[0]) && NeverToldNo(session, Take(session, w, moves[0]), moves[1..]))
  }

  // ---- What such a run keeps ----

  ghost predicate WasExecuted(executed: seq<Execution>, m: Message) {
    exists e :: e in executed && MessageOf(e) == m
  }

  /** If the Broker's record has reached the side's next sequence, it holds what the side has in flight. */
  ghost predicate LastMine(side: Side, rec: Option<Record>, executed: seq<Execution>) {
    && rec.Some? && side.store.owner.Some? && rec.value.epoch == side.store.owner.value.epoch
    && rec.value.last.Some? && rec.value.last.value.sequence == side.store.next
    ==> Flying(side).Some? &&
        exists e :: e in executed && MessageOf(e) == Flying(side).value && e.c == rec.value.last.value.command
  }

  /** Whatever was ever sent with the side's next identity is what it has in flight. */
  ghost predicate SentMine(side: Side, sent: set<Message>) {
    forall m | m in sent && m.CommandMsg? && Current(side.store, m.id) :: Flying(side) == Some(m)
  }

  ghost predicate SideExact(session: nat, side: Side, w: World) {
    LastMine(side, RecordOf(session, w.node), w.executed) && SentMine(side, w.sent)
  }

  /** What the Broker itself rejected, memory and file are past. */
  ghost predicate RejectedSpent(w: World) {
    forall a | a in w.answered && a.0.CommandMsg? && IsRejection(a.1) && a.1 != SATURATED ::
      Spent(w.mem.store, a.0.id) && Spent(w.disk.store, a.0.id)
  }

  /** While a command is in flight in memory, the file has it in flight too or is past it. */
  predicate FileFollows(w: World) {
    Flying(w.mem).Some? ==> w.disk == w.mem || Spent(w.disk.store, Flying(w.mem).value.id)
  }

  /** One reservation per executed identity, and confirmations speak of it. */
  ghost predicate OneEach(w: World) {
    && (forall m, e | m in w.sent && e in w.executed && m.CommandMsg? && SameIdentity(m.id, e.id) :: MessageOf(e) == m)
    && (forall a | a in w.answered && a.0.CommandMsg? && Confirms(a.1) :: WasExecuted(w.executed, a.0))
    && (forall m | m in w.acked :: WasExecuted(w.executed, m))
  }

  ghost predicate Exact(session: nat, w: World) {
    && Invariant(session, w) && SideExact(session, w.mem, w) && SideExact(session, w.disk, w)
    && RejectedSpent(w) && FileFollows(w) && OneEach(w) && w.released == {}
  }

  lemma InitialExact(session: nat, w: World)
    requires Initial(session, w)
    ensures Exact(session, w)
  {
    InitialFits(session, w);
  }

  lemma ExactParts(session: nat, w: World)
    requires Exact(session, w)
    ensures Invariant(session, w) && SideExact(session, w.mem, w) && SideExact(session, w.disk, w)
    ensures RejectedSpent(w) && FileFollows(w) && OneEach(w) && w.released == {}
  {}

  lemma MakeExact(session: nat, w: World)
    requires Invariant(session, w) && SideExact(session, w.mem, w) && SideExact(session, w.disk, w)
    requires RejectedSpent(w) && FileFollows(w) && OneEach(w) && w.released == {}
    ensures Exact(session, w)
  {}

  // ---- Moves that touch only the stores ----

  lemma CrashExact(session: nat, w: World)
    requires Exact(session, w)
    ensures Exact(session, w.(mem := w.disk, tries := None))
  {
    CrashKeeps(session, w);
    CountersKeep(session, w.(mem := w.disk), w.tickets, None);
    hide Invariant, LastMine, SentMine, WasExecuted, OneEach, Spent;
    SameBooks(w, w.(mem := w.disk, tries := None));
  }

  lemma SameBooks(w: World, w': World)
    requires OneEach(w) && w'.sent == w.sent && w'.executed == w.executed && w'.answered == w.answered
    requires forall m | m in w'.acked :: m in w.acked || WasExecuted(w.executed, m)
    ensures OneEach(w')
  {
    hide WasExecuted, Confirms, MessageOf;
  }

  /** The store has gone on from `st`, past whatever was in flight. */
  predicate NotBehind(st: Store, st': Store) {
    && (st.owner.Some? ==>
          && st'.owner.Some? && st.owner.value.epoch <= st'.owner.value.epoch
          && (st'.owner.value.epoch == st.owner.value.epoch ==> st.next <= st'.next))
    && (st.inFlight.Some? ==> Spent(st', st.inFlight.value.identity))
  }

  lemma StillSpent(st: Store, st': Store, id: Identity)
    requires NotBehind(st, st') && Spent(st, id)
    ensures Spent(st', id)
  {}

  lemma PersistExact(session: nat, w: World, wanted: Result<Store, StoreError>, ticket: nat, io: Write)
    requires Exact(session, w) && Invariant(session, Persist(w, wanted, ticket, io))
    requires wanted.Ok? ==> SideExact(session, Side(wanted.value, ticket), w) && NotBehind(w.mem.store, wanted.value)
    ensures Exact(session, Persist(w, wanted, ticket, io))
  {
    hide Invariant, LastMine, SentMine, WasExecuted, OneEach, Spent, IsRejection;
    var w' := Persist(w, wanted, ticket, io);
    SameBooks(w, w');
    if wanted.Ok? {
      forall a | a in w.answered && a.0.CommandMsg? && IsRejection(a.1) && a.1 != SATURATED
        ensures Spent(wanted.value, a.0.id)
      {
        StillSpent(w.mem.store, wanted.value, a.0.id);
      }
    }
  }

  lemma BeginSide(session: nat, w: World, instance: nat)
    requires SideExact(session, w.mem, w) && Begin(w.mem.store, instance).Ok?
    ensures SideExact(session, Side(Begin(w.mem.store, instance).value, w.mem.ticket), w)
    ensures NotBehind(w.mem.store, Begin(w.mem.store, instance).value)
  {}

  lemma ConfirmSide(session: nat, w: World, epoch: nat)
    requires Invariant(session, w) && Granted(w, epoch) && Confirm(w.mem.store, epoch).Ok?
    ensures SideExact(session, Side(Confirm(w.mem.store, epoch).value, w.mem.ticket), w)
    ensures NotBehind(w.mem.store, Confirm(w.mem.store, epoch).value)
  {
    Parts(session, w);
    GrantIsTrue(session, w, epoch);
    ConfirmFits(session, w, w.mem.store, epoch);
    var side := Side(Confirm(w.mem.store, epoch).value, w.mem.ticket);
    hide AnswersTrue, HistoryFits, Ahead, Erase;
    forall m | m in w.sent && m.CommandMsg? ensures !Current(side.store, m.id) {
      assert MessageFits(session, w.mem.store, m);
    }
  }

  lemma AcknowledgeSide(session: nat, w: World, id: Identity)
    requires Invariant(session, w) && Acknowledge(w.mem.store, id).Ok? && Recorded(RecordOf(session, w.node), id)
    ensures SideExact(session, Side(Acknowledge(w.mem.store, id).value, w.mem.ticket), w)
    ensures NotBehind(w.mem.store, Acknowledge(w.mem.store, id).value)
  {
    Parts(session, w);
    var side := Side(Acknowledge(w.mem.store, id).value, w.mem.ticket);
    hide AnswersTrue, HistoryFits, Ahead, Erase;
    forall m | m in w.sent && m.CommandMsg? ensures !Current(side.store, m.id) {
      assert MessageFits(session, w.mem.store, m);
    }
  }

  lemma ReserveSide(session: nat, w: World, request: Command)
    requires SideExact(session, w.mem, w) && Reserve(session, w.mem.store, request).Ok?
    ensures SideExact(session, Side(Reserve(session, w.mem.store, request).value, w.tickets), w)
    ensures NotBehind(w.mem.store, Reserve(session, w.mem.store, request).value)
  {}

  lemma BeginExact(session: nat, w: World, instance: nat, io: Write)
    requires Exact(session, w)
    ensures Exact(session, Persist(w, Begin(w.mem.store, instance), w.mem.ticket, io))
  {
    hide Exact, Invariant, SideExact, RejectedSpent, FileFollows, OneEach, Persist, Begin, NotBehind;
    ExactParts(session, w);
    BeginKeeps(session, w, instance, io);
    if Begin(w.mem.store, instance).Ok? {
      BeginSide(session, w, instance);
    }
    PersistExact(session, w, Begin(w.mem.store, instance), w.mem.ticket, io);
  }

  lemma ConfirmExact(session: nat, w: World, epoch: nat, io: Write)
    requires Exact(session, w) && Granted(w, epoch)
    ensures Exact(session, Persist(w, Confirm(w.mem.store, epoch), w.mem.ticket, io))
  {
    hide Exact, Invariant, SideExact, RejectedSpent, FileFollows, OneEach, Persist, Confirm, NotBehind, Granted;
    ExactParts(session, w);
    ConfirmKeeps(session, w, epoch, io);
    if Confirm(w.mem.store, epoch).Ok? {
      ConfirmSide(session, w, epoch);
    }
    PersistExact(session, w, Confirm(w.mem.store, epoch), w.mem.ticket, io);
  }

  lemma CountersExact(session: nat, w: World, tickets: nat, tries: Option<nat>)
    requires Exact(session, w)
    ensures Exact(session, w.(tickets := tickets, tries := tries))
  {
    ExactParts(session, w);
    hide Invariant, LastMine, SentMine, WasExecuted, OneEach, Spent, IsRejection;
    CountersKeep(session, w, tickets, tries);
    SameBooks(w, w.(tickets := tickets, tries := tries));
  }

  lemma ReserveExact(session: nat, w: World, request: Command, io: Write)
    requires Exact(session, w) && Erase(request) == request
    ensures Exact(session, Booked(session, w, request, io))
  {
    hide Exact, Invariant, SideExact, RejectedSpent, FileFollows, OneEach, Persist, Reserve, NotBehind, Erase, Fits,
      Ahead, AnswersTrue, HistoryFits, ValidStore;
    ExactParts(session, w);
    Parts(session, w);
    var wanted := Reserve(session, w.mem.store, request);
    if wanted.Ok? {
      ReserveSide(session, w, request);
      ReserveFits(session, w, w.mem.store, request);
    }
    PersistKeeps(session, w, wanted, w.tickets, io);
    PersistExact(session, w, wanted, w.tickets, io);
    CountersExact(session, Persist(w, wanted, w.tickets, io), w.tickets + 1,
                  if wanted.Ok? && io.Written? then Some(0) else w.tries);
  }

  // ---- Answers that the client takes in ----

  lemma FlyingIsCurrent(session: nat, side: Side)
    requires ValidStore(session, side.store) && Flying(side).Some?
    ensures Current(side.store, Flying(side).value.id) && !Spent(side.store, Flying(side).value.id)
  {}

  lemma ConfirmationExact(session: nat, w: World, response: Response, io: Write)
    requires Exact(session, w) && Answers(w, response) && Confirms(response)
    ensures
      var msg := Flying(w.mem).value;
      Exact(session, Settled(w, msg, Acknowledge(w.mem.store, msg.id), true, io))
  {
    hide Exact, Invariant, SideExact, RejectedSpent, FileFollows, OneEach, Acknowledge, NotBehind, Erase, Fits, Ahead,
      AnswersTrue, HistoryFits, ValidStore, WasExecuted, Confirms, Recorded, Done;
    ExactParts(session, w);
    Parts(session, w);
    var msg := Flying(w.mem).value;
    var wanted := Acknowledge(w.mem.store, msg.id);
    AnswerIsTrue(session, w, response);
    AckedAre(session, w);
    ConfirmedWasExecuted(w, msg, response);
    if wanted.Ok? {
      AcknowledgeSide(session, w, msg.id);
      AcknowledgeFits(session, w, w.mem.store, msg.id);
    }
    PersistKeeps(session, w, wanted, w.mem.ticket, io);
    PersistExact(session, w, wanted, w.mem.ticket, io);
    var w' := Persist(w, wanted, w.mem.ticket, io);
    AckedKeeps(session, w', w.acked + {msg}, w.released);
    AckedExact(session, w', msg);
  }

  lemma ConfirmedWasExecuted(w: World, msg: Message, response: Response)
    requires OneEach(w) && msg.CommandMsg? && (msg, response) in w.answered && Confirms(response)
    ensures WasExecuted(w.executed, msg)
  {}

  lemma AckedExact(session: nat, w: World, msg: Message)
    requires Exact(session, w) && WasExecuted(w.executed, msg) && Invariant(session, w.(acked := w.acked + {msg}))
    ensures Exact(session, w.(acked := w.acked + {msg}))
  {
    hide Invariant, LastMine, SentMine, WasExecuted, OneEach, Spent, IsRejection;
    SameBooks(w, w.(acked := w.acked + {msg}));
  }

  /** The command in flight is never rejected by the Broker itself. */
  lemma OnlyTurnedAway(session: nat, w: World, response: Response)
    requires Exact(session, w) && Answers(w, response) && IsRejection(response)
    ensures response == SATURATED
  {
    hide Invariant, SideExact, OneEach, Spent;
    Parts(session, w);
    FlyingIsCurrent(session, w.mem);
  }

  lemma ReceiveExact(session: nat, w: World, response: Response, io: Write)
    requires Exact(session, w) && !ToldNo(w, Receive(response, io))
    ensures Exact(session, Received(w, response, io))
  {
    hide Exact, Acknowledge, Release;
    if Answers(w, response) {
      if Confirms(response) {
        hide Settled;
        ConfirmationExact(session, w, response, io);
      } else if IsRejection(response) {
        OnlyTurnedAway(session, w, response);
      }
    }
  }

  // ---- The network and the Broker ----

  /** What the Broker has executed under the identity in flight is what is in flight. */
  lemma ExecutedIsFlying(session: nat, w: World, e: Execution)
    requires Invariant(session, w) && LastMine(w.mem, RecordOf(session, w.node), w.executed) && Flying(w.mem).Some?
    requires e in w.executed && SameIdentity(e.id, Flying(w.mem).value.id)
    ensures MessageOf(e) == Flying(w.mem).value
  {
    Parts(session, w);
    var i :| 0 <= i < |w.executed| && w.executed[i] == e;
    assert Recorded(RecordOf(session, w.node), w.executed[i].id);
    hide Erase, AnswersTrue, NetworkFits, Ahead, Done;
    var e' :| e' in w.executed && MessageOf(e') == Flying(w.mem).value;
    var j :| 0 <= j < |w.executed| && w.executed[j] == e';
    assert SameIdentity(e.id, e'.id);
    assert i == j;
  }

  lemma SentSideExact(session: nat, side: Side, w: World, m: Message)
    requires SideExact(session, side, w) && (m.CommandMsg? && Current(side.store, m.id) ==> Flying(side) == Some(m))
    ensures SideExact(session, side, Sent(w, m))
  {
    hide LastMine, Current;
  }

  lemma SentBooks(w: World, m: Message)
    requires OneEach(w)
    requires m.CommandMsg? ==> forall e | e in w.executed && SameIdentity(m.id, e.id) :: MessageOf(e) == m
    ensures OneEach(Sent(w, m))
  {
    hide WasExecuted, Confirms, MessageOf;
  }

  lemma SentExact(session: nat, w: World, m: Message)
    requires Exact(session, w) && Invariant(session, Sent(w, m))
    requires m.CommandMsg? ==> forall e | e in w.executed && SameIdentity(m.id, e.id) :: MessageOf(e) == m
    requires m.CommandMsg? && Current(w.mem.store, m.id) ==> Flying(w.mem) == Some(m)
    requires m.CommandMsg? && Current(w.disk.store, m.id) ==> Flying(w.disk) == Some(m)
    ensures Exact(session, Sent(w, m))
  {
    hide Invariant, SideExact, OneEach, Current, Spent, IsRejection;
    SentSideExact(session, w.mem, w, m);
    SentSideExact(session, w.disk, w, m);
    SentBooks(w, m);
  }

  lemma SpentNotCurrent(st: Store, id: Identity)
    requires Spent(st, id)
    ensures !Current(st, id)
  {}

  lemma TransmitExact(session: nat, w: World)
    requires Exact(session, w) && Flying(w.mem).Some?
    ensures Exact(session, Transmitted(w))
  {
    hide Exact, Invariant, SideExact, RejectedSpent, OneEach, Current, Spent, MessageFits, MessageOf, SameIdentity;
    ExactParts(session, w);
    var m := Flying(w.mem).value;
    FlyingFits(session, w);
    SentKeeps(session, w, m);
    forall e | e in w.executed && SameIdentity(m.id, e.id) ensures MessageOf(e) == m {
      SideParts(session, w.mem, w);
      IdentitySymmetric(m.id, e.id);
      ExecutedIsFlying(session, w, e);
    }
    if w.disk != w.mem {
      SpentNotCurrent(w.disk.store, m.id);
    }
    SentExact(session, w, m);
    CountersExact(session, Sent(w, m), w.tickets, if w.tries.Some? then Some(w.tries.value + 1) else None);
  }

  lemma SideParts(session: nat, side: Side, w: World)
    requires SideExact(session, side, w)
    ensures LastMine(side, RecordOf(session, w.node), w.executed) && SentMine(side, w.sent)
  {}

  lemma IdentitySymmetric(a: Identity, b: Identity)
    ensures SameIdentity(a, b) <==> SameIdentity(b, a)
  {}

  lemma SendAcquireExact(session: nat, w: World)
    requires Exact(session, w) && w.mem.store.pending.Some?
    ensures Exact(session, Sent(w, AcquireMsg(w.mem.store.pending.value.expected, w.mem.store.pending.value.instance)))
  {
    hide Exact, Invariant, MessageFits;
    ExactParts(session, w);
    var m := AcquireMsg(w.mem.store.pending.value.expected, w.mem.store.pending.value.instance);
    PendingFits(session, w);
    SentKeeps(session, w, m);
    SentExact(session, w, m);
  }

  /** The Broker's record stays, or is a fresh one without an outcome. */
  predicate SameOrFresh(session: nat, n: Node, n': Node) {
    RecordOf(session, n') == RecordOf(session, n) ||
    (RecordOf(session, n').Some? && RecordOf(session, n').value.last.None?)
  }

  lemma SideStays(session: nat, side: Side, w: World, w': World)
    requires SideExact(session, side, w) && SameOrFresh(session, w.node, w'.node)
    requires w'.executed == w.executed && w'.sent == w.sent
    ensures SideExact(session, side, w')
  {}

  lemma AnsweredBooks(w: World, w': World, msg: Message, r: Response)
    requires OneEach(w) && (msg.CommandMsg? && Confirms(r) ==> WasExecuted(w.executed, msg))
    requires w'.executed == w.executed && w'.acked == w.acked && w'.sent == w.sent
    requires w'.answered == w.answered + {(msg, r)}
    ensures OneEach(w')
  {
    hide WasExecuted, Confirms, MessageOf;
  }

  lemma AnsweredSpent(w: World, w': World, msg: Message, r: Response)
    requires RejectedSpent(w) && w'.mem == w.mem && w'.disk == w.disk && w'.answered == w.answered + {(msg, r)}
    requires msg.CommandMsg? && IsRejection(r) && r != SATURATED ==>
               Spent(w.mem.store, msg.id) && Spent(w.disk.store, msg.id)
    ensures RejectedSpent(w')
  {
    hide Spent, IsRejection;
  }

  /** A message is answered and nothing is executed. */
  lemma AnsweredExact(session: nat, w: World, w': World, msg: Message, r: Response)
    requires Exact(session, w) && Invariant(session, w') && SameOrFresh(session, w.node, w'.node)
    requires w' == w.(node := w'.node, frames := w'.frames, answered := w.answered + {(msg, r)})
    requires msg.CommandMsg? && Confirms(r) ==> WasExecuted(w.executed, msg)
    requires msg.CommandMsg? && IsRejection(r) && r != SATURATED ==>
               Spent(w.mem.store, msg.id) && Spent(w.disk.store, msg.id)
    ensures Exact(session, w')
  {
    hide Exact, Invariant, SideExact, RejectedSpent, OneEach, Spent, IsRejection, Confirms, WasExecuted, SameOrFresh;
    ExactParts(session, w);
    SideStays(session, w.mem, w, w');
    SideStays(session, w.disk, w, w');
    AnsweredBooks(w, w', msg, r);
    AnsweredSpent(w, w', msg, r);
    MakeExact(session, w');
  }

  /** Only node or frames have changed. */
  lemma QuietExact(session: nat, w: World, w': World)
    requires Exact(session, w) && Invariant(session, w') && RecordOf(session, w'.node) == RecordOf(session, w.node)
    requires w' == w.(node := w'.node, frames := w'.frames)
    ensures Exact(session, w')
  {
    hide Exact, Invariant, SideExact, OneEach, Spent, IsRejection;
    ExactParts(session, w);
    SideStays(session, w.mem, w, w');
    SideStays(session, w.disk, w, w');
    SameBooks(w, w');
    MakeExact(session, w');
  }

  // ---- Commands that arrive ----

  /** What a side has in flight is executed, or answered from its record. */
  lemma FlyingNotRefused(session: nat, side: Side, w: World, c: Command)
    requires Fits(session, side.store, w) && LastMine(side, RecordOf(session, w.node), w.executed)
    requires Flying(side).Some? && Erase(c) == Flying(side).value.request
    ensures !Judge(w.node.sessions, Flying(side).value.id, c).Refuse?
  {
    var rec := RecordOf(session, w.node);
    if rec.Some? && rec.value.last.Some? {
      SameRequestIsErasure(c, rec.value.last.value.command);
    }
    hide NetworkFits, SameRequest;
  }

  lemma RejectedIsRefused(n: Node, p: Proposal)
    requires Decodes(p) && p.identity.Some? && p.request.Run? && IsRejection(Deliver(n, p).value.response)
    requires
      var k := p.identity.value.session;
      k in n.sessions && n.sessions[k].last.Some? ==> IsCommitted(n.sessions[k].last.value.response)
    ensures Judge(n.sessions, p.identity.value, p.request.c).Refuse?
  {
    hide Exec, SameRequest;
  }

  lemma RefusedIsSpent(session: nat, side: Side, w: World, msg: Message, c: Command)
    requires Fits(session, side.store, w) && SideExact(session, side, w) && HistoryFits(session, w)
    requires msg in w.sent && msg.CommandMsg? && Erase(c) == msg.request
    requires IsRejection(Deliver(w.node, ProposalFor(session, msg, c)).value.response)
    ensures Spent(side.store, msg.id)
  {
    assert MessageFits(session, side.store, msg);
    RejectedIsRefused(w.node, ProposalFor(session, msg, c));
    if Current(side.store, msg.id) {
      FlyingNotRefused(session, side, w, c);
    }
    hide Judge, Deliver, Erase, HistoryFits, LastMine, View;
  }

  lemma ExecutedSideExact(session: nat, side: Side, w: World, w': World, msg: Message, c: Command, r: Response)
    requires SideExact(session, side, w) && MessageFits(session, side.store, msg) && msg in w.sent && msg.CommandMsg?
    requires Erase(c) == msg.request && !Spent(side.store, msg.id)
    requires RecordOf(session, w'.node) ==
               Some(Record(msg.id.epoch, msg.id.instance, Some(Last(msg.id.sequence, c, r))))
    requires w'.executed == w.executed + [Execution(msg.id, c, msg.ticket)] && w'.sent == w.sent
    ensures SideExact(session, side, w')
  {
    var e := Execution(msg.id, c, msg.ticket);
    assert w'.executed[|w.executed|] == e;
    assert e in w'.executed && MessageOf(e) == msg;
    hide Erase;
  }

  /** Everything ever sent with the executed identity is the executed message. */
  lemma SentAgree(session: nat, side: Side, w: World, msg: Message)
    requires SentMine(side, w.sent) && NetworkFits(session, side.store, w.sent)
    requires msg in w.sent && msg.CommandMsg? && !Spent(side.store, msg.id)
    ensures forall m | m in w.sent && m.CommandMsg? && SameIdentity(m.id, msg.id) :: m == msg
  {
    assert MessageFits(session, side.store, msg);
    forall m | m in w.sent && m.CommandMsg? && SameIdentity(m.id, msg.id) ensures m == msg {
      assert MessageFits(session, side.store, m);
    }
    hide Erase;
  }

  lemma ExecutedBooks(w: World, w': World, e: Execution, r: Response)
    requires OneEach(w) && w'.executed == w.executed + [e] && w'.acked == w.acked && w'.sent == w.sent
    requires w'.answered == w.answered + {(MessageOf(e), r)}
    requires forall m | m in w.sent && m.CommandMsg? && SameIdentity(m.id, e.id) :: m == MessageOf(e)
    ensures OneEach(w')
  {
    forall m | WasExecuted(w.executed, m) ensures WasExecuted(w'.executed, m) {
      var x :| x in w.executed && MessageOf(x) == m;
      assert x in w'.executed;
    }
    assert w'.executed[|w.executed|] == e;
    assert WasExecuted(w'.executed, MessageOf(e));
    hide Confirms, MessageOf, WasExecuted;
  }

  lemma ExecutedExact(session: nat, w: World, w': World, msg: Message, c: Command, r: Response)
    requires Exact(session, w) && Invariant(session, w') && msg in w.sent && msg.CommandMsg? && Erase(c) == msg.request
    requires !Spent(w.mem.store, msg.id) && !Spent(w.disk.store, msg.id) && IsCommitted(r)
    requires w' == w.(node := w'.node, frames := w'.frames, answered := w.answered + {(msg, r)},
                      executed := w.executed + [Execution(msg.id, c, msg.ticket)])
    requires RecordOf(session, w'.node) ==
               Some(Record(msg.id.epoch, msg.id.instance, Some(Last(msg.id.sequence, c, r))))
    ensures Exact(session, w')
  {
    ExactParts(session, w);
    Parts(session, w);
    assert MessageFits(session, w.mem.store, msg) && MessageFits(session, w.disk.store, msg);
    SentAgree(session, w.mem, w, msg);
    hide Exact, Invariant, SideExact, RejectedSpent, OneEach, Spent, WasExecuted, Fits, AnswersTrue, HistoryFits, Ahead,
      ValidStore, Erase, MessageFits, SameIdentity;
    ExecutedSideExact(session, w.mem, w, w', msg, c, r);
    ExecutedSideExact(session, w.disk, w, w', msg, c, r);
    ExecutedBooks(w, w', Execution(msg.id, c, msg.ticket), r);
    AnsweredSpent(w, w', msg, r);
    MakeExact(session, w');
  }

  lemma RepeatedWasSent(session: nat, w: World, msg: Message)
    requires HistoryFits(session, w) && OneEach(w) && msg in w.sent && msg.CommandMsg? && msg.id.session == session
    requires session in w.node.sessions && w.node.sessions[session].last.Some?
    requires w.node.sessions[session].epoch == msg.id.epoch && w.node.sessions[session].instance == msg.id.instance
    requires w.node.sessions[session].last.value.sequence == msg.id.sequence
    ensures WasExecuted(w.executed, msg)
  {
    var e :| e in w.executed && e.id == msg.id;
    assert SameIdentity(msg.id, e.id);
  }

  lemma ArriveCommandExact(session: nat, w: World, msg: Message, c: Command)
    requires Exact(session, w) && CanArrive(w, msg, c) && msg.CommandMsg?
    ensures Exact(session, Arrived(session, w, msg, c))
  {
    var p := ProposalFor(session, msg, c);
    ExactParts(session, w);
    Parts(session, w);
    FramesAreSent(session, w);
    ArriveKeeps(session, w, msg, c);
    assert MessageFits(session, w.mem.store, msg) && MessageFits(session, w.disk.store, msg);
    Outcomes(w.node, p);
    ArrivedIs(session, w, msg, c);
    var w', r := Arrived(session, w, msg, c), Deliver(w.node, p).value.response;
    hide Exact, Invariant, SideExact, RejectedSpent, OneEach, Deliver, Arrived, Judge, Executes, HistoryFits, Ahead,
      AnswersTrue, View, NetworkFits, Spent, Erase, WasExecuted, SameRequest;
    if Executes(w.node, p) {
      ExecutesJudged(w.node, p);
      if Spent(w.mem.store, msg.id) {
        SpentNotExecuted(session, w.mem.store, w.node, msg.id, c);
      }
      if Spent(w.disk.store, msg.id) {
        SpentNotExecuted(session, w.disk.store, w.node, msg.id, c);
      }
      ExecutedExact(session, w, w', msg, c, r);
    } else {
      if Confirms(r) {
        RepeatedIs(w.node, p);
        RepeatedWasSent(session, w, msg);
      } else if IsRejection(r) {
        RefusedIsSpent(session, w.mem, w, msg, c);
        RefusedIsSpent(session, w.disk, w, msg, c);
      }
      AnsweredExact(session, w, w', msg, r);
    }
  }

  lemma ArriveAcquireExact(session: nat, w: World, msg: Message, c: Command)
    requires Exact(session, w) && CanArrive(w, msg, c) && msg.AcquireMsg?
    ensures Exact(session, Arrived(session, w, msg, c))
  {
    ExactParts(session, w);
    Parts(session, w);
    FramesAreSent(session, w);
    ArriveKeeps(session, w, msg, c);
    assert MessageFits(session, w.mem.store, msg);
    AcquireIs(session, w.node, msg.expected, msg.instance);
    AcquireClears(session, w.node, msg.expected, msg.instance);
    ArrivedIs(session, w, msg, c);
    hide Invariant, Exact, Deliver, Arrived, AcquireOwner;
    AnsweredExact(session, w, Arrived(session, w, msg, c), msg,
                  AcquireOwner(w.node, session, msg.expected, msg.instance).response);
  }

  lemma TurnAwayExact(session: nat, w: World, msg: Message)
    requires Exact(session, w) && msg in w.frames
    ensures Exact(session, w.(frames := w.frames - multiset{msg}, answered := w.answered + {(msg, SATURATED)}))
  {
    hide Invariant, Exact;
    ExactParts(session, w);
    TurnAwayKeeps(session, w, msg);
    AnsweredExact(session, w, w.(frames := w.frames - multiset{msg}, answered := w.answered + {(msg, SATURATED)}),
                  msg, SATURATED);
  }

  lemma DuplicateExact(session: nat, w: World, msg: Message)
    requires Exact(session, w) && msg in w.sent
    ensures Exact(session, w.(frames := w.frames + multiset{msg}))
  {
    hide Invariant, Exact;
    ExactParts(session, w);
    DuplicateKeeps(session, w, msg);
    QuietExact(session, w, w.(frames := w.frames + multiset{msg}));
  }

  lemma OthersExact(session: nat, w: World, p: Proposal)
    requires Exact(session, w) && Foreign(session, p) && Deliver(w.node, p).Ok?
    ensures Exact(session, w.(node := Deliver(w.node, p).value.n))
  {
    hide Invariant, Exact, Deliver, Foreign;
    ExactParts(session, w);
    ForeignKeepsRecord(session, w.node, p);
    OthersKeep(session, w, p);
    QuietExact(session, w, w.(node := Deliver(w.node, p).value.n));
  }

  // ---- Every move, every run ----

  lemma TakeExact(session: nat, w: World, move: Move)
    requires Exact(session, w) && !ToldNo(w, move)
    ensures Exact(session, Take(session, w, move))
  {
    hide Exact, Invariant, Persist, Confirm, Begin, Booked, Received, Arrived, CanArrive, Deliver, Erase, Foreign,
      Granted, MessageFits, Sent, Transmitted, ToldNo;
    match move
    case Crash => CrashExact(session, w);
    case BeginAcquire(instance, io) => BeginExact(session, w, instance, io);
    case ConfirmAcquire(epoch, io) => if Granted(w, epoch) { ConfirmExact(session, w, epoch, io); }
    case ReserveCommand(request, io) => if Erase(request) == request { ReserveExact(session, w, request, io); }
    case SendAcquire => if w.mem.store.pending.Some? { SendAcquireExact(session, w); }
    case SendCommand => if Flying(w.mem).Some? { TransmitExact(session, w); }
    case Receive(response, io) => ReceiveExact(session, w, response, io);
    case Arrive(msg, c) =>
      if CanArrive(w, msg, c) {
        if msg.CommandMsg? { ArriveCommandExact(session, w, msg, c); } else { ArriveAcquireExact(session, w, msg, c); }
      }
    case TurnAway(msg) => if msg in w.frames { TurnAwayExact(session, w, msg); }
    case Duplicate(msg) => if msg in w.sent { DuplicateExact(session, w, msg); }
    case Others(p) => if Foreign(session, p) && Deliver(w.node, p).Ok? { OthersExact(session, w, p); }
  }

  lemma {:induction false} PlayExact(session: nat, w: World, moves: seq<Move>)
    requires Exact(session, w) && NeverToldNo(session, w, moves)
    ensures Exact(session, Play(session, w, moves))
    decreases |moves|
  {
    hide Exact, Take, ToldNo;
    if moves != [] {
      TakeExact(session, w, moves[0]);
      PlayExact(session, Take(session, w, moves[0]), moves[1..]);
    }
  }

  /** No command is released, every acknowledged reservation was executed, no identity and hence no
      reservation is executed twice, and the Broker never refuses the one in flight. */
  ghost predicate Faultless(w: World) {
    && w.released == {}
    && (forall m | m in w.acked :: WasExecuted(w.executed, m))
    && (forall i, j | 0 <= i < j < |w.executed| ::
          !SameIdentity(w.executed[i].id, w.executed[j].id) && MessageOf(w.executed[i]) != MessageOf(w.executed[j]))
    && (forall c: Command | Flying(w.mem).Some? && Erase(c) == Flying(w.mem).value.request ::
          !Judge(w.node.sessions, Flying(w.mem).value.id, c).Refuse?)
  }

  /** Exactly once, for the client as it is written, over every run in which it is never told that its
      command was turned away. */
  lemma ExactlyOnceServed(session: nat, w: World, moves: seq<Move>)
    requires Initial(session, w) && NeverToldNo(session, w, moves)
    ensures Faultless(Play(session, w, moves))
  {
    hide Exact, Invariant, Play, NeverToldNo, Judge, Erase, WasExecuted, SideExact, Fits, AnswersTrue, Ahead, Initial;
    InitialExact(session, w);
    PlayExact(session, w, moves);
    var end := Play(session, w, moves);
    ExactParts(session, end);
    Parts(session, end);
    SideParts(session, end.mem, end);
    forall c: Command | Flying(end.mem).Some? && Erase(c) == Flying(end.mem).value.request
      ensures !Judge(end.node.sessions, Flying(end.mem).value.id, c).Refuse?
    {
      FlyingNotRefused(session, end.mem, end, c);
    }
  }

  // ---- When a command is released ----

  lemma ReleasedGrows(session: nat, w: World, move: Move)
    ensures w.released <= Take(session, w, move).released
  {
    hide Deliver, Begin, Confirm, Reserve, Acknowledge, Release, Erase, Foreign;
  }

  lemma ToldReleases(session: nat, w: World, move: Move)
    requires ToldNo(w, move)
    ensures Flying(w.mem).value in Take(session, w, move).released
  {
    hide Deliver, Arrived, Booked, Erase;
  }

  lemma {:induction false} ReleasedStays(session: nat, w: World, moves: seq<Move>)
    ensures w.released <= Play(session, w, moves).released
    decreases |moves|
  {
    hide Take;
    if moves != [] {
      ReleasedGrows(session, w, moves[0]);
      ReleasedStays(session, Take(session, w, moves[0]), moves[1..]);
    }
  }

  lemma {:induction false} ToldReleasesForGood(session: nat, w: World, moves: seq<Move>)
    requires !NeverToldNo(session, w, moves)
    ensures Play(session, w, moves).released != {}
    decreases |moves|
  {
    hide Take, ToldNo;
    var w' := Take(session, w, moves[0]);
    if ToldNo(w, moves[0]) {
      ToldReleases(session, w, moves[0]);
      ReleasedStays(session, w', moves[1..]);
      assert w'.released != {};
    } else {
      ToldReleasesForGood(session, w', moves[1..]);
    }
  }

  /** A command is released if and only if the client was told that one was turned away. */
  lemma ReleasedIffTold(session: nat, w: World, moves: seq<Move>)
    requires Initial(session, w)
    ensures Play(session, w, moves).released == {} <==> NeverToldNo(session, w, moves)
  {
    hide Play, NeverToldNo, Initial;
    if NeverToldNo(session, w, moves) {
      ExactlyOnceServed(session, w, moves);
    } else {
      ToldReleasesForGood(session, w, moves);
    }
  }

  // ---- A server that turns no command away ----

  predicate TurnsNoneAway(moves: seq<Move>) {
    forall m | m in moves && m.TurnAway? :: m.msg.AcquireMsg?
  }

  ghost predicate NoneTurnedAway(w: World) {
    forall a | a in w.answered && a.0.CommandMsg? :: a.1 != SATURATED
  }

  lemma DeliveredNotTurnedAway(session: nat, w: World, msg: Message, c: Command)
    requires Invariant(session, w) && CanArrive(w, msg, c) && msg.CommandMsg?
    ensures Deliver(w.node, ProposalFor(session, msg, c)).value.response != SATURATED
  {
    Parts(session, w);
    FramesAreSent(session, w);
    assert MessageFits(session, w.mem.store, msg);
    Outcomes(w.node, ProposalFor(session, msg, c));
    hide Deliver, Executes, View, Erase, AnswersTrue, Ahead;
  }

  lemma ArriveNoneTurnedAway(session: nat, w: World, msg: Message, c: Command)
    requires Invariant(session, w) && CanArrive(w, msg, c) && NoneTurnedAway(w)
    ensures NoneTurnedAway(Arrived(session, w, msg, c))
  {
    hide Invariant, Deliver, Executes, Erase;
    if msg.CommandMsg? {
      DeliveredNotTurnedAway(session, w, msg, c);
    }
  }

  lemma TakeNoneTurnedAway(session: nat, w: World, move: Move)
    requires Invariant(session, w) && NoneTurnedAway(w) && (move.TurnAway? ==> move.msg.AcquireMsg?)
    ensures NoneTurnedAway(Take(session, w, move)) && !ToldNo(w, move)
  {
    hide Invariant, Arrived, CanArrive, Deliver, Begin, Confirm, Reserve, Acknowledge, Release, Erase, Foreign;
    if move.Arrive? && CanArrive(w, move.msg, move.c) {
      ArriveNoneTurnedAway(session, w, move.msg, move.c);
    }
  }

  /** If the server turns no command away, the client is never told so. */
  lemma {:induction false} NobodyTells(session: nat, w: World, moves: seq<Move>)
    requires Invariant(session, w) && NoneTurnedAway(w) && TurnsNoneAway(moves)
    ensures NeverToldNo(session, w, moves)
    decreases |moves|
  {
    hide Invariant, NoneTurnedAway, Take, ToldNo;
    if moves != [] {
      assert moves[0] in moves && forall m | m in moves[1..] :: m in moves;
      TakeNoneTurnedAway(session, w, moves[0]);
      TakeKeeps(session, w, moves[0]);
      NobodyTells(session, Take(session, w, moves[0]), moves[1..]);
    }
  }

  /** So a server that turns no command away gives exactly-once execution on any network, to a client
      that crashes and loses writes as it may. */
  lemma ExactlyOnceUnlessOverloaded(session: nat, w: World, moves: seq<Move>)
    requires Initial(session, w) && TurnsNoneAway(moves)
    ensures Faultless(Play(session, w, moves))
  {
    hide Invariant, TurnsNoneAway, Faultless, Play, NeverToldNo;
    InitialFits(session, w);
    NobodyTells(session, w, moves);
    ExactlyOnceServed(session, w, moves);
  }
}
