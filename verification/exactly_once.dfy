/** End to end: one durable store per session, a network that may lose, repeat, delay and reorder, a
    server that may turn requests away, a client that may crash at any point, and the replicated Broker
    shared with other clients. */
module ExactlyOnce {
  import opened Order
  import opened BrokerState
  import opened BrokerMachine
  import opened Sessions
  import opened Client

  /** The ticket tells reservations apart; neither client nor Broker ever looks at it. */
  datatype Message = AcquireMsg(expected: nat, instance: nat) | CommandMsg(id: Identity, request: Command, ticket: nat)

  datatype Execution = Execution(id: Identity, c: Command, ticket: nat)

  /** A copy of the client's state, with the ticket of its latest reservation. */
  datatype Side = Side(store: Store, ticket: nat)

  /** `frames` are the copies of messages under way; a copy that never arrives is lost.  `tries` is what
      the running client process knows about the command in flight: how often it sent it since it
      reserved it, or nothing after a restart.  `sent`, `answered`, `executed`, `acked` and `released`
      are the history that the claims are about. */
  datatype World = World(
    node: Node, mem: Side, disk: Side, tickets: nat, tries: Option<nat>,
    frames: multiset<Message>, sent: set<Message>, answered: set<(Message, Response)>,
    executed: seq<Execution>, acked: set<Message>, released: set<Message>)

  datatype Move =
    | Crash
    | BeginAcquire(instance: nat, io: Write)
    | ConfirmAcquire(epoch: nat, io: Write)
    | ReserveCommand(request: Command, io: Write)
    | SendAcquire
    | SendCommand
    | Receive(response: Response, io: Write)
    | Arrive(msg: Message, c: Command)
    | TurnAway(msg: Message)
    | Duplicate(msg: Message)
    | Others(p: Proposal)

  /** The message that a side has in flight. */
  function Flying(side: Side): Option<Message> {
    if side.store.inFlight.None? then None
    else Some(CommandMsg(side.store.inFlight.value.identity, side.store.inFlight.value.request, side.ticket))
  }

  function MessageOf(e: Execution): Message {
    CommandMsg(e.id, Erase(e.c), e.ticket)
  }

  function Persist(w: World, wanted: Result<Store, StoreError>, ticket: nat, io: Write): World {
    if wanted.Err? || io.LostBefore? then w
    else if io.LostAfter? then w.(disk := Side(wanted.value, ticket))
    else w.(mem := Side(wanted.value, ticket), disk := Side(wanted.value, ticket))
  }

  /** The answer of a server whose request queue is full, given before anything is proposed. */
  const SATURATED := ApplicationError(Saturated, Refused)

  /** The proposal that the server makes of a message; it fills in clocks and limits itself. */
  function ProposalFor(session: nat, msg: Message, c: Command): Proposal {
    match msg
    case AcquireMsg(expected, instance) => Proposal(None, Acquire(session, expected, instance))
    case CommandMsg(id, _, _) => Proposal(Some(id), Run(c))
  }

  predicate CanArrive(w: World, msg: Message, c: Command) {
    msg in w.frames && (msg.CommandMsg? ==> Erase(c) == msg.request)
  }

  function Arrived(session: nat, w: World, msg: Message, c: Command): World {
    var p := ProposalFor(session, msg, c);
    match Deliver(w.node, p)
    case Err(_) => w
    case Ok(d) =>
      w.(node := d.n, frames := w.frames - multiset{msg}, answered := w.answered + {(msg, d.response)},
         executed :=
           if msg.CommandMsg? && Executes(w.node, p) then w.executed + [Execution(msg.id, c, msg.ticket)]
           else w.executed)
  }

  /** A proposal of somebody else: it does not speak for this session. */
  predicate Foreign(session: nat, p: Proposal) {
    && (p.identity.Some? ==> p.identity.value.session != session)
    && (p.request.Acquire? ==> p.request.session != session)
  }

  predicate Answers(w: World, response: Response) {
    Flying(w.mem).Some? && (Flying(w.mem).value, response) in w.answered
  }

  /** The answer to the command in flight settles it as the client does: what is confirmed is
      acknowledged, what is rejected is released. */
  function Received(w: World, response: Response, io: Write): World {
    if !Answers(w, response) then w
    else
      var msg := Flying(w.mem).value;
      match Wanted(w.mem.store, msg.id, response)
      case None => w
      case Some(wanted) => Settled(w, msg, wanted, Confirms(response), io)
  }

  function Settled(w: World, msg: Message, wanted: Result<Store, StoreError>, confirmed: bool, io: Write): World {
    var w' := Persist(w, wanted, w.mem.ticket, io);
    if wanted.Err? || io.LostBefore? then w'
    else if confirmed then w'.(acked := w.acked + {msg})
    else w'.(released := w.released + {msg})
  }

  function Sent(w: World, msg: Message): World {
    w.(sent := w.sent + {msg}, frames := w.frames + multiset{msg})
  }

  function Transmitted(w: World): World
    requires Flying(w.mem).Some?
  {
    Sent(w, Flying(w.mem).value).(tries := if w.tries.Some? then Some(w.tries.value + 1) else None)
  }

  function Booked(session: nat, w: World, request: Command, io: Write): World {
    var wanted := Reserve(session, w.mem.store, request);
    var w' := Persist(w, wanted, w.tickets, io);
    w'.(tickets := w.tickets + 1, tries := if wanted.Ok? && io.Written? then Some(0) else w.tries)
  }

  function Take(session: nat, w: World, move: Move): World {
    match move
    case Crash => w.(mem := w.disk, tries := None)
    case BeginAcquire(instance, io) => Persist(w, Begin(w.mem.store, instance), w.mem.ticket, io)
    case ConfirmAcquire(epoch, io) =>
      if Granted(w, epoch) then Persist(w, Confirm(w.mem.store, epoch), w.mem.ticket, io) else w
    case ReserveCommand(request, io) => if Erase(request) == request then Booked(session, w, request, io) else w
    case SendAcquire =>
      if w.mem.store.pending.Some? then
        Sent(w, AcquireMsg(w.mem.store.pending.value.expected, w.mem.store.pending.value.instance))
      else w
    case SendCommand => if Flying(w.mem).Some? then Transmitted(w) else w
    case Receive(response, io) => Received(w, response, io)
    case Arrive(msg, c) => if CanArrive(w, msg, c) then Arrived(session, w, msg, c) else w
    case TurnAway(msg) =>
      if msg in w.frames then w.(frames := w.frames - multiset{msg}, answered := w.answered + {(msg, SATURATED)}) else w
    case Duplicate(msg) => if msg in w.sent then w.(frames := w.frames + multiset{msg}) else w
    case Others(p) =>
      if Foreign(session, p) then match Deliver(w.node, p) { case Err(_) => w case Ok(d) => w.(node := d.n) } else w
  }

  /** The acquisition that memory waits for was answered with this epoch. */
  predicate Granted(w: World, epoch: nat) {
    w.mem.store.pending.Some? && epoch > 0 &&
    (AcquireMsg(w.mem.store.pending.value.expected, w.mem.store.pending.value.instance),
     OwnerAcquired(epoch)) in w.answered
  }

  function Play(session: nat, w: World, moves: seq<Move>): World
    decreases |moves|
  {
    if moves == [] then w else Play(session, Take(session, w, moves[0]), moves[1..])
  }

  /** Any Broker that has not seen the session, and a store that was just created. */
  predicate Initial(session: nat, w: World) {
    session !in w.node.sessions && w.mem == Side(NewStore, 0) && w.disk == Side(NewStore, 0) && w.tickets == 0 &&
    w.tries == None && w.frames == multiset{} && w.sent == {} && w.answered == {} &&
    w.executed == [] && w.acked == {} && w.released == {}
  }

  // ---- What a store knows about the Broker's record ----

  function RecordOf(session: nat, n: Node): Option<Record> {
    if session in n.sessions then Some(n.sessions[session]) else None
  }

  predicate LastFits(st: Store, last: Option<Last>) {
    match last
    case None => st.next == 1
    case Some(l) => l.sequence + 1 == st.next || l.sequence == st.next
  }

  /** The Broker's record is what the store believes, or the one thing further that it may have asked for. */
  predicate View(session: nat, st: Store, rec: Option<Record>) {
    && ValidStore(session, st)
    && (st.inFlight.Some? ==> Erase(st.inFlight.value.request) == st.inFlight.value.request)
    && match st.owner
       case None =>
         && (st.pending.Some? ==> st.pending.value.expected == 1)
         && (rec.None? || (st.pending.Some? && rec == Some(Record(1, Some(st.pending.value.instance), None))))
       case Some(owner) =>
         && rec.Some?
         && (st.pending.Some? ==>
                 st.pending.value.expected == owner.epoch && st.pending.value.instance != owner.instance)
         && (|| (rec.value.epoch == owner.epoch &&
                rec.value.instance == Some(owner.instance) && LastFits(st, rec.value.last))
             || (st.pending.Some? && rec == Some(Record(owner.epoch + 1, Some(st.pending.value.instance), None))))
  }

  /** The store has moved past this identity. */
  predicate Spent(st: Store, id: Identity) {
    st.owner.Some? &&
    (id.epoch < st.owner.value.epoch || (id.epoch == st.owner.value.epoch && id.sequence < st.next))
  }

  /** The identity of the store's next command. */
  predicate Current(st: Store, id: Identity) {
    st.owner.Some? && id.epoch == st.owner.value.epoch &&
    id.instance == Some(st.owner.value.instance) && id.sequence == st.next
  }

  predicate SpentAcquire(st: Store, expected: nat, instance: nat) {
    st.owner.Some? &&
    (expected < st.owner.value.epoch || (expected == st.owner.value.epoch && instance == st.owner.value.instance))
  }

  predicate MessageFits(session: nat, st: Store, m: Message) {
    match m
    case CommandMsg(id, request, _) =>
      && id.session == session && id.epoch > 0 && id.sequence > 0 && id.instance.Some? && Erase(request) == request
      && (Spent(st, id) || Current(st, id))
    case AcquireMsg(expected, instance) =>
      expected > 0 && (SpentAcquire(st, expected, instance) || st.pending == Some(Pending(expected, instance)))
  }

  /** Nothing that was ever sent is ahead of the store. */
  ghost predicate NetworkFits(session: nat, st: Store, sent: set<Message>) {
    forall m | m in sent :: MessageFits(session, st, m)
  }

  ghost predicate Fits(session: nat, st: Store, w: World) {
    View(session, st, RecordOf(session, w.node)) && NetworkFits(session, st, w.sent)
  }

  predicate Recorded(rec: Option<Record>, id: Identity) {
    rec.Some? && (rec.value.epoch > id.epoch ||
                  (rec.value.epoch == id.epoch && rec.value.last.Some? && rec.value.last.value.sequence >= id.sequence))
  }

  /** The identity was executed for this request. */
  ghost predicate Done(executed: seq<Execution>, id: Identity, request: Command) {
    exists e :: e in executed && e.id == id && Erase(e.c) == request
  }

  /** Confirmations say the truth about the Broker. */
  predicate OwnerTrue(rec: Option<Record>, epoch: nat, instance: nat) {
    rec.Some? && (rec.value.epoch > epoch || (rec.value.epoch == epoch && rec.value.instance == Some(instance)))
  }

  ghost predicate AnswerTrue(rec: Option<Record>, executed: seq<Execution>, m: Message, r: Response) {
    match m
    case CommandMsg(id, request, _) => Confirms(r) ==> Recorded(rec, id) && Done(executed, id, request)
    case AcquireMsg(_, instance) => r.OwnerAcquired? ==> OwnerTrue(rec, r.epoch, instance)
  }

  ghost predicate AnswersTrue(session: nat, w: World) {
    forall a | a in w.answered :: a.0 in w.sent && AnswerTrue(RecordOf(session, w.node), w.executed, a.0, a.1)
  }

  /** The record's last outcome is in the history, and the history holds each identity once. */
  ghost predicate HistoryFits(session: nat, w: World) {
    && (forall i | 0 <= i < |w.executed| :: Recorded(RecordOf(session, w.node), w.executed[i].id))
    && (forall i, j | 0 <= i < j < |w.executed| :: !SameIdentity(w.executed[i].id, w.executed[j].id))
    && (forall i | 0 <= i < |w.executed| :: w.executed[i].id.session == session && MessageOf(w.executed[i]) in w.sent)
    && LastExecuted(session, RecordOf(session, w.node), w.executed)
  }

  ghost predicate LastExecuted(session: nat, rec: Option<Record>, executed: seq<Execution>) {
    rec.Some? && rec.value.last.Some? ==>
      var last := rec.value.last.value;
      && IsCommitted(last.response)
      && exists e ::
           && e in executed && e.c == last.command
           && e.id == Identity(session, rec.value.epoch, rec.value.instance, last.sequence)
  }

  /** The file may be ahead of memory: then it is at, or past, whatever memory is still waiting for. */
  predicate Ahead(mem: Store, disk: Store) {
    && (mem.inFlight.Some? ==> Current(disk, mem.inFlight.value.identity) || Spent(disk, mem.inFlight.value.identity))
    && (mem.pending.Some? ==>
          disk.pending == mem.pending || SpentAcquire(disk, mem.pending.value.expected, mem.pending.value.instance))
  }

  ghost predicate Invariant(session: nat, w: World) {
    && Fits(session, w.mem.store, w) && Fits(session, w.disk.store, w) && Ahead(w.mem.store, w.disk.store)
    && (forall m | m in w.frames :: m in w.sent)
    && AnswersTrue(session, w) && HistoryFits(session, w)
    && (forall m | m in w.acked :: m.CommandMsg? && Done(w.executed, m.id, m.request))
  }

  // ---- Arrivals at the Broker ----

  /** What a store is past is not executed. */
  lemma SpentNotExecuted(session: nat, st: Store, n: Node, id: Identity, c: Command)
    requires View(session, st, RecordOf(session, n)) && id.session == session && id.sequence > 0 && Spent(st, id)
    ensures !Judge(n.sessions, id, c).Execute?
  {}

  lemma ExecutedView(session: nat, st: Store, rec: Option<Record>, id: Identity, c: Command, r: Response)
    requires View(session, st, rec) && Current(st, id) && rec.Some? && rec.value.epoch == id.epoch
    ensures View(session, st, Some(Record(id.epoch, id.instance, Some(Last(id.sequence, c, r)))))
  {}

  lemma ExecutesJudged(n: Node, p: Proposal)
    requires Executes(n, p)
    ensures p.identity.Some? && p.request.Run? && Judge(n.sessions, p.identity.value, p.request.c).Execute?
  {}

  lemma JudgedEpoch(n: Node, id: Identity, c: Command)
    requires Judge(n.sessions, id, c).Execute? && id.session in n.sessions
    ensures n.sessions[id.session].epoch == id.epoch
  {}

  lemma ArriveCommandView(session: nat, w: World, st: Store, msg: Message, c: Command)
    requires View(session, st, RecordOf(session, w.node)) && MessageFits(session, st, msg)
    requires CanArrive(w, msg, c) && msg.CommandMsg?
    ensures View(session, st, RecordOf(session, Arrived(session, w, msg, c).node))
  {
    var p := ProposalFor(session, msg, c);
    Outcomes(w.node, p);
    hide Judge, Deliver, SameRequest, Erase, Executes, View;
    if Executes(w.node, p) {
      ExecutesJudged(w.node, p);
      if Spent(st, msg.id) {
        SpentNotExecuted(session, st, w.node, msg.id, c);
      }
      CurrentHasRecord(session, st, RecordOf(session, w.node), msg.id);
      JudgedEpoch(w.node, msg.id, c);
      ExecutedView(session, st, RecordOf(session, w.node), msg.id, c, Deliver(w.node, p).value.response);
    }
  }

  lemma CurrentHasRecord(session: nat, st: Store, rec: Option<Record>, id: Identity)
    requires View(session, st, rec) && Current(st, id)
    ensures rec.Some?
  {}

  lemma AcquireIs(session: nat, n: Node, expected: nat, instance: nat)
    requires expected > 0
    ensures Deliver(n, Proposal(None, Acquire(session, expected, instance))) ==
              Ok(AcquireOwner(n, session, expected, instance))
  {}

  /** A spent acquisition changes nothing; an awaited one leads where the store expects. */
  lemma AcquireView(session: nat, st: Store, n: Node, expected: nat, instance: nat)
    requires View(session, st, RecordOf(session, n)) && expected > 0
    requires SpentAcquire(st, expected, instance) || st.pending == Some(Pending(expected, instance))
    ensures View(session, st, RecordOf(session, AcquireOwner(n, session, expected, instance).n))
    ensures
      var d := AcquireOwner(n, session, expected, instance);
      d.response.OwnerAcquired? ==> OwnerTrue(RecordOf(session, d.n), d.response.epoch, instance)
  {}

  lemma ArriveFits(session: nat, w: World, st: Store, msg: Message, c: Command)
    requires Fits(session, st, w) && CanArrive(w, msg, c) && msg in w.sent
    ensures Fits(session, st, Arrived(session, w, msg, c))
  {
    assert MessageFits(session, st, msg);
    if msg.CommandMsg? {
      ArriveCommandView(session, w, st, msg, c);
    } else {
      AcquireIs(session, w.node, msg.expected, msg.instance);
      AcquireView(session, st, w.node, msg.expected, msg.instance);
    }
    hide Deliver, AcquireOwner, View, Executes;
  }

  // ---- Answers and history ----

  predicate OptForward(a: Option<Record>, b: Option<Record>) {
    a.Some? ==> b.Some? && Forward(a.value, b.value)
  }

  lemma RecordForward(session: nat, n: Node, p: Proposal)
    requires Deliver(n, p).Ok?
    ensures OptForward(RecordOf(session, n), RecordOf(session, Deliver(n, p).value.n))
  {
    hide Deliver, Forward;
    DeliverForward(n, p);
  }

  lemma StillRecorded(a: Option<Record>, b: Option<Record>, id: Identity)
    requires OptForward(a, b) && Recorded(a, id)
    ensures Recorded(b, id)
  {}

  lemma StillTrue(
    a: Option<Record>, b: Option<Record>, was: seq<Execution>, executed: seq<Execution>, m: Message, r: Response)
    requires AnswerTrue(a, was, m, r) && OptForward(a, b) && was <= executed
    ensures AnswerTrue(b, executed, m, r)
  {
    if m.CommandMsg? && Confirms(r) {
      StillRecorded(a, b, m.id);
      var e :| e in was && e.id == m.id && Erase(e.c) == m.request;
      assert e in executed;
    }
  }

  lemma RepeatedIs(n: Node, p: Proposal)
    requires Decodes(p) && p.identity.Some? && p.request.Run? && !Executes(n, p)
    requires Deliver(n, p).Ok? && Confirms(Deliver(n, p).value.response)
    ensures
      var id := p.identity.value;
      && id.session in n.sessions && n.sessions[id.session].last.Some?
      && n.sessions[id.session].epoch == id.epoch && n.sessions[id.session].instance == id.instance
      && n.sessions[id.session].last.value.sequence == id.sequence
      && SameRequest(p.request.c, n.sessions[id.session].last.value.command)
  {
    hide Exec, SameRequest;
  }

  lemma ArrivedIs(session: nat, w: World, msg: Message, c: Command)
    requires Deliver(w.node, ProposalFor(session, msg, c)).Ok?
    ensures
      var p := ProposalFor(session, msg, c);
      var d, w' := Deliver(w.node, p).value, Arrived(session, w, msg, c);
      && w' == w.(node := d.n, frames := w.frames - multiset{msg},
                  answered := w.answered + {(msg, d.response)}, executed := w'.executed)
      && w'.executed ==
           if Executed(session, w, msg, c) then w.executed + [Execution(msg.id, c, msg.ticket)] else w.executed
  {}

  predicate Executed(session: nat, w: World, msg: Message, c: Command) {
    msg.CommandMsg? && Executes(w.node, ProposalFor(session, msg, c))
  }

  /** What the answer to an arriving command says about the Broker after it. */
  lemma CommandAnswerTrue(session: nat, w: World, msg: Message, c: Command)
    requires HistoryFits(session, w) && CanArrive(w, msg, c) && msg.CommandMsg? && msg.id.session == session
    requires msg.id.epoch > 0 && msg.id.sequence > 0
    ensures
      var w' := Arrived(session, w, msg, c);
      AnswerTrue(RecordOf(session, w'.node), w'.executed, msg,
                 Deliver(w.node, ProposalFor(session, msg, c)).value.response)
  {
    var p := ProposalFor(session, msg, c);
    Outcomes(w.node, p);
    ArrivedIs(session, w, msg, c);
    var d, w' := Deliver(w.node, p).value, Arrived(session, w, msg, c);
    if Executes(w.node, p) {
      assert w'.executed[|w.executed|] == Execution(msg.id, c, msg.ticket);
    } else if Confirms(d.response) {
      RepeatedIs(w.node, p);
      var last := w.node.sessions[session].last.value;
      SameRequestIsErasure(c, last.command);
      var e :| e in w.executed && e.id == msg.id && e.c == last.command;
    }
    hide Deliver, Erase, SameRequest, Executes, Arrived;
  }

  lemma ArriveTrue(session: nat, w: World, st: Store, msg: Message, c: Command)
    requires AnswersTrue(session, w) && HistoryFits(session, w) && Fits(session, st, w) && CanArrive(w, msg, c)
    requires msg in w.sent
    requires Deliver(w.node, ProposalFor(session, msg, c)).Ok?
    ensures AnswersTrue(session, Arrived(session, w, msg, c))
  {
    assert MessageFits(session, st, msg);
    var p, w' := ProposalFor(session, msg, c), Arrived(session, w, msg, c);
    ArrivedIs(session, w, msg, c);
    RecordForward(session, w.node, p);
    if msg.CommandMsg? {
      CommandAnswerTrue(session, w, msg, c);
    } else {
      AcquireIs(session, w.node, msg.expected, msg.instance);
      AcquireView(session, st, w.node, msg.expected, msg.instance);
    }
    hide Deliver, Arrived, AcquireOwner, View, Executes, Recorded, OptForward, HistoryFits, Erase, Done, OwnerTrue;
    forall a | a in w.answered ensures AnswerTrue(RecordOf(session, w'.node), w'.executed, a.0, a.1) {
      StillTrue(RecordOf(session, w.node), RecordOf(session, w'.node), w.executed, w'.executed, a.0, a.1);
    }
  }

  lemma ExecutedIsNew(session: nat, w: World, msg: Message, c: Command)
    requires HistoryFits(session, w) && Executed(session, w, msg, c) && msg.id.session == session
    ensures forall i | 0 <= i < |w.executed| :: !SameIdentity(w.executed[i].id, msg.id)
  {
    forall i | 0 <= i < |w.executed| ensures !SameIdentity(w.executed[i].id, msg.id) {
      assert Recorded(RecordOf(session, w.node), w.executed[i].id);
    }
  }

  lemma HistoryGrows(session: nat, w: World, w': World)
    requires HistoryFits(session, w) && OptForward(RecordOf(session, w.node), RecordOf(session, w'.node))
    requires w'.executed == w.executed && w.sent <= w'.sent
    requires RecordOf(session, w'.node).Some? && RecordOf(session, w'.node).value.last.Some? ==>
               RecordOf(session, w.node) == RecordOf(session, w'.node)
    ensures HistoryFits(session, w')
  {
    forall i | 0 <= i < |w'.executed| ensures Recorded(RecordOf(session, w'.node), w'.executed[i].id) {
      StillRecorded(RecordOf(session, w.node), RecordOf(session, w'.node), w.executed[i].id);
    }
    hide Recorded, OptForward, Erase;
  }

  lemma HistoryExtends(session: nat, w: World, w': World, e: Execution, r: Response)
    requires HistoryFits(session, w) && OptForward(RecordOf(session, w.node), RecordOf(session, w'.node))
    requires w'.executed == w.executed + [e] && w'.sent == w.sent && MessageOf(e) in w.sent
    requires RecordOf(session, w'.node) == Some(Record(e.id.epoch, e.id.instance, Some(Last(e.id.sequence, e.c, r))))
    requires IsCommitted(r) && e.id.session == session
    requires forall i | 0 <= i < |w.executed| :: !SameIdentity(w.executed[i].id, e.id)
    ensures HistoryFits(session, w')
  {
    var rec := RecordOf(session, w'.node);
    forall i | 0 <= i < |w'.executed| ensures Recorded(rec, w'.executed[i].id) {
      if i < |w.executed| {
        StillRecorded(RecordOf(session, w.node), rec, w.executed[i].id);
      }
    }
    assert w'.executed[|w.executed|] == e;
    assert e in w'.executed;
    hide Recorded, OptForward, Erase, IsCommitted;
  }

  lemma ExecutedHistory(session: nat, w: World, msg: Message, c: Command)
    requires HistoryFits(session, w) && CanArrive(w, msg, c) && msg in w.sent && Executed(session, w, msg, c)
    requires msg.id.session == session
    ensures HistoryFits(session, Arrived(session, w, msg, c))
  {
    var p := ProposalFor(session, msg, c);
    Outcomes(w.node, p);
    ExecutedIsNew(session, w, msg, c);
    RecordForward(session, w.node, p);
    ArrivedIs(session, w, msg, c);
    hide Deliver, Arrived, Executes, OptForward, Erase, IsCommitted, HistoryFits;
    HistoryExtends(session, w, Arrived(session, w, msg, c), Execution(msg.id, c, msg.ticket),
                   Deliver(w.node, p).value.response);
  }

  lemma AcquireClears(session: nat, n: Node, expected: nat, instance: nat)
    ensures
      var rec := RecordOf(session, AcquireOwner(n, session, expected, instance).n);
      rec == RecordOf(session, n) || (rec.Some? && rec.value.last.None?)
  {}

  lemma AcquireHistory(session: nat, w: World, msg: Message, c: Command)
    requires HistoryFits(session, w) && msg.AcquireMsg? && msg.expected > 0
    ensures HistoryFits(session, Arrived(session, w, msg, c))
  {
    AcquireIs(session, w.node, msg.expected, msg.instance);
    RecordForward(session, w.node, ProposalFor(session, msg, c));
    ArrivedIs(session, w, msg, c);
    AcquireClears(session, w.node, msg.expected, msg.instance);
    hide Deliver, Arrived, AcquireOwner, HistoryFits, OptForward;
    HistoryGrows(session, w, Arrived(session, w, msg, c));
  }

  lemma ArriveHistory(session: nat, w: World, st: Store, msg: Message, c: Command)
    requires HistoryFits(session, w) && Fits(session, st, w) && CanArrive(w, msg, c) && msg in w.sent
    ensures Deliver(w.node, ProposalFor(session, msg, c)).Ok? && HistoryFits(session, Arrived(session, w, msg, c))
  {
    assert MessageFits(session, st, msg);
    var p := ProposalFor(session, msg, c);
    if msg.AcquireMsg? {
      AcquireIs(session, w.node, msg.expected, msg.instance);
      AcquireHistory(session, w, msg, c);
    } else {
      Outcomes(w.node, p);
      if Executes(w.node, p) {
        ExecutedHistory(session, w, msg, c);
      } else {
        ArrivedIs(session, w, msg, c);
        hide Deliver, Arrived, Executes, HistoryFits, OptForward;
        RecordForward(session, w.node, p);
        HistoryGrows(session, w, Arrived(session, w, msg, c));
      }
    }
    hide Deliver, Arrived, Executes, HistoryFits, OptForward, AcquireOwner;
  }

  lemma DoneStays(was: seq<Execution>, executed: seq<Execution>, id: Identity, request: Command)
    requires Done(was, id, request) && was <= executed
    ensures Done(executed, id, request)
  {
    var e :| e in was && e.id == id && Erase(e.c) == request;
    assert e in executed;
  }

  lemma ArriveKeeps(session: nat, w: World, msg: Message, c: Command)
    requires Invariant(session, w) && CanArrive(w, msg, c)
    ensures Invariant(session, Arrived(session, w, msg, c)) && Deliver(w.node, ProposalFor(session, msg, c)).Ok?
  {
    ArriveFits(session, w, w.mem.store, msg, c);
    ArriveFits(session, w, w.disk.store, msg, c);
    ArriveHistory(session, w, w.mem.store, msg, c);
    ArriveTrue(session, w, w.mem.store, msg, c);
    ArrivedIs(session, w, msg, c);
    hide Deliver, Arrived, Executes, HistoryFits, Fits, AnswersTrue, Done, Ahead, Erase;
    var w' := Arrived(session, w, msg, c);
    forall m | m in w'.acked ensures m.CommandMsg? && Done(w'.executed, m.id, m.request) {
      DoneStays(w.executed, w'.executed, m.id, m.request);
    }
  }

  lemma ForeignKeepsRecord(session: nat, n: Node, p: Proposal)
    requires Foreign(session, p) && Deliver(n, p).Ok?
    ensures RecordOf(session, Deliver(n, p).value.n) == RecordOf(session, n)
  {
    hide Exec, Judge;
  }

  /** Nothing the invariant speaks of has changed but the network. */
  lemma NetworkKeeps(session: nat, w: World, w': World)
    requires Invariant(session, w) && RecordOf(session, w'.node) == RecordOf(session, w.node)
    requires w'.mem == w.mem && w'.disk == w.disk && w'.sent == w.sent && w'.executed == w.executed
    requires w'.acked == w.acked
    requires forall m | m in w'.frames :: m in w.sent
    requires forall a | a in w'.answered :: a in w.answered || (a.0 in w.sent && a.1 == SATURATED)
    ensures Invariant(session, w')
  {
    assert HistoryFits(session, w');
    hide View, MessageFits, Erase, Recorded, Done, HistoryFits;
  }

  // ---- Moves of the client ----

  lemma BeginFits(session: nat, w: World, st: Store, instance: nat)
    requires Fits(session, st, w) && Begin(st, instance).Ok?
    ensures Fits(session, Begin(st, instance).value, w) && Ahead(st, Begin(st, instance).value)
  {}

  lemma ReserveFits(session: nat, w: World, st: Store, request: Command)
    requires Fits(session, st, w) && Reserve(session, st, request).Ok? && Erase(request) == request
    ensures Fits(session, Reserve(session, st, request).value, w) && Ahead(st, Reserve(session, st, request).value)
  {
    hide Erase;
  }

  lemma ReleaseFits(session: nat, w: World, st: Store, id: Identity)
    requires Fits(session, st, w) && Release(st, id).Ok?
    ensures Fits(session, Release(st, id).value, w) && Ahead(st, Release(st, id).value)
  {
    hide Erase;
  }

  lemma ConfirmFits(session: nat, w: World, st: Store, epoch: nat)
    requires Fits(session, st, w) && Confirm(st, epoch).Ok? && epoch > 0
    requires OwnerTrue(RecordOf(session, w.node), epoch, st.pending.value.instance)
    ensures Fits(session, Confirm(st, epoch).value, w) && Ahead(st, Confirm(st, epoch).value)
  {
    hide Erase;
  }

  lemma AcknowledgeFits(session: nat, w: World, st: Store, id: Identity)
    requires Fits(session, st, w) && Acknowledge(st, id).Ok? && Recorded(RecordOf(session, w.node), id)
    ensures Fits(session, Acknowledge(st, id).value, w) && Ahead(st, Acknowledge(st, id).value)
  {
    hide Erase;
  }

  /** Memory and file both fit, whatever the disk did. */
  lemma PersistKeeps(session: nat, w: World, wanted: Result<Store, StoreError>, ticket: nat, io: Write)
    requires Invariant(session, w)
    requires wanted.Ok? ==> Fits(session, wanted.value, w) && Ahead(w.mem.store, wanted.value)
    ensures Invariant(session, Persist(w, wanted, ticket, io))
  {
    var w' := Persist(w, wanted, ticket, io);
    assert Fits(session, w'.mem.store, w') && Fits(session, w'.disk.store, w');
    assert AnswersTrue(session, w') && HistoryFits(session, w');
    assert ValidStore(session, w'.mem.store);
    AheadItself(session, w'.mem.store);
    hide Fits, AnswersTrue, HistoryFits, Done;
  }

  lemma AheadItself(session: nat, st: Store)
    requires ValidStore(session, st)
    ensures Ahead(st, st)
  {}

  lemma Parts(session: nat, w: World)
    requires Invariant(session, w)
    ensures Fits(session, w.mem.store, w) && Fits(session, w.disk.store, w) && Ahead(w.mem.store, w.disk.store)
    ensures AnswersTrue(session, w) && HistoryFits(session, w)
    ensures ValidStore(session, w.mem.store) && ValidStore(session, w.disk.store)
  {}

  lemma AnswerIsTrue(session: nat, w: World, response: Response)
    requires AnswersTrue(session, w) && Answers(w, response) && Confirms(response)
    ensures
      var msg := Flying(w.mem).value;
      Recorded(RecordOf(session, w.node), msg.id) && Done(w.executed, msg.id, msg.request)
  {}

  lemma GrantIsTrue(session: nat, w: World, epoch: nat)
    requires AnswersTrue(session, w) && Granted(w, epoch)
    ensures OwnerTrue(RecordOf(session, w.node), epoch, w.mem.store.pending.value.instance)
  {}

  lemma AckedKeeps(session: nat, w: World, acked: set<Message>, released: set<Message>)
    requires Invariant(session, w) && forall m | m in acked :: m.CommandMsg? && Done(w.executed, m.id, m.request)
    ensures Invariant(session, w.(acked := acked, released := released))
  {
    var w' := w.(acked := acked, released := released);
    assert Fits(session, w'.mem.store, w') && Fits(session, w'.disk.store, w') &&
           AnswersTrue(session, w') && HistoryFits(session, w');
    hide Fits, AnswersTrue, HistoryFits, Done;
  }

  lemma SettledKeeps(
    session: nat, w: World, msg: Message, wanted: Result<Store, StoreError>, confirmed: bool, io: Write)
    requires Invariant(session, w) && msg.CommandMsg?
    requires wanted.Ok? ==> Fits(session, wanted.value, w) && Ahead(w.mem.store, wanted.value)
    requires confirmed ==> Done(w.executed, msg.id, msg.request)
    ensures Invariant(session, Settled(w, msg, wanted, confirmed, io))
  {
    var w' := Persist(w, wanted, w.mem.ticket, io);
    PersistKeeps(session, w, wanted, w.mem.ticket, io);
    AckedAre(session, w);
    hide Invariant, Done;
    if confirmed {
      AckedKeeps(session, w', w.acked + {msg}, w.released);
    } else {
      AckedKeeps(session, w', w.acked, w.released + {msg});
    }
  }

  lemma AckedAre(session: nat, w: World)
    requires Invariant(session, w)
    ensures forall m | m in w.acked :: m.CommandMsg? && Done(w.executed, m.id, m.request)
  {}

  lemma ReceiveKeeps(session: nat, w: World, response: Response, io: Write)
    requires Invariant(session, w)
    ensures Invariant(session, Received(w, response, io))
  {
    hide Invariant, Fits, AnswersTrue, HistoryFits, Ahead, ValidStore, Acknowledge, Release, Confirms, IsRejection,
      Recorded, Done, Settled;
    Parts(session, w);
    if Answers(w, response) && Wanted(w.mem.store, Flying(w.mem).value.id, response).Some? {
      var msg := Flying(w.mem).value;
      var wanted := Wanted(w.mem.store, msg.id, response).value;
      if Confirms(response) {
        AnswerIsTrue(session, w, response);
        if wanted.Ok? {
          AcknowledgeFits(session, w, w.mem.store, msg.id);
        }
      } else if wanted.Ok? {
        ReleaseFits(session, w, w.mem.store, msg.id);
      }
      SettledKeeps(session, w, msg, wanted, Confirms(response), io);
    }
  }

  lemma SentKeeps(session: nat, w: World, m: Message)
    requires Invariant(session, w) && MessageFits(session, w.mem.store, m) && MessageFits(session, w.disk.store, m)
    ensures Invariant(session, Sent(w, m))
  {
    var w' := Sent(w, m);
    assert AnswersTrue(session, w') && HistoryFits(session, w');
    hide View, MessageFits, AnswersTrue, HistoryFits, Done, Ahead;
  }

  lemma FlyingFits(session: nat, w: World)
    requires Invariant(session, w) && Flying(w.mem).Some?
    ensures MessageFits(session, w.mem.store, Flying(w.mem).value)
    ensures MessageFits(session, w.disk.store, Flying(w.mem).value)
  {
    hide Erase, NetworkFits, AnswersTrue, HistoryFits, Done;
  }

  lemma PendingFits(session: nat, w: World)
    requires Invariant(session, w) && w.mem.store.pending.Some?
    ensures
      var m := AcquireMsg(w.mem.store.pending.value.expected, w.mem.store.pending.value.instance);
      MessageFits(session, w.mem.store, m) && MessageFits(session, w.disk.store, m)
  {
    hide Erase, NetworkFits, AnswersTrue, HistoryFits, Done;
  }

  /** Tickets and tries are bookkeeping. */
  lemma CountersKeep(session: nat, w: World, tickets: nat, tries: Option<nat>)
    requires Invariant(session, w)
    ensures Invariant(session, w.(tickets := tickets, tries := tries))
  {
    var w' := w.(tickets := tickets, tries := tries);
    assert Fits(session, w'.mem.store, w') && Fits(session, w'.disk.store, w') &&
           AnswersTrue(session, w') && HistoryFits(session, w');
    hide Fits, AnswersTrue, HistoryFits, Done;
  }

  lemma TransmitKeeps(session: nat, w: World)
    requires Invariant(session, w) && Flying(w.mem).Some?
    ensures Invariant(session, Transmitted(w))
  {
    hide Invariant, MessageFits;
    FlyingFits(session, w);
    SentKeeps(session, w, Flying(w.mem).value);
    CountersKeep(session, Sent(w, Flying(w.mem).value), w.tickets,
                 if w.tries.Some? then Some(w.tries.value + 1) else None);
  }

  lemma CrashKeeps(session: nat, w: World)
    requires Invariant(session, w)
    ensures Invariant(session, w.(mem := w.disk))
  {
    var w' := w.(mem := w.disk);
    Parts(session, w);
    AheadItself(session, w.disk.store);
    assert Fits(session, w'.mem.store, w') && AnswersTrue(session, w') && HistoryFits(session, w');
    hide Fits, AnswersTrue, HistoryFits, Done, Ahead;
  }

  lemma ConfirmKeeps(session: nat, w: World, epoch: nat, io: Write)
    requires Invariant(session, w) && Granted(w, epoch)
    ensures Invariant(session, Persist(w, Confirm(w.mem.store, epoch), w.mem.ticket, io))
  {
    hide Invariant, Fits, AnswersTrue, HistoryFits, Persist, Confirm, Ahead, ValidStore, OwnerTrue;
    Parts(session, w);
    GrantIsTrue(session, w, epoch);
    if Confirm(w.mem.store, epoch).Ok? {
      ConfirmFits(session, w, w.mem.store, epoch);
    }
    PersistKeeps(session, w, Confirm(w.mem.store, epoch), w.mem.ticket, io);
  }

  lemma BeginKeeps(session: nat, w: World, instance: nat, io: Write)
    requires Invariant(session, w)
    ensures Invariant(session, Persist(w, Begin(w.mem.store, instance), w.mem.ticket, io))
  {
    hide Invariant, Fits, AnswersTrue, HistoryFits, Persist, Begin, Ahead, ValidStore;
    Parts(session, w);
    if Begin(w.mem.store, instance).Ok? {
      BeginFits(session, w, w.mem.store, instance);
    }
    PersistKeeps(session, w, Begin(w.mem.store, instance), w.mem.ticket, io);
  }

  lemma ReserveKeeps(session: nat, w: World, request: Command, io: Write)
    requires Invariant(session, w) && Erase(request) == request
    ensures Invariant(session, Booked(session, w, request, io))
  {
    hide Invariant, Fits, AnswersTrue, HistoryFits, Persist, Reserve, Ahead, ValidStore, Erase;
    Parts(session, w);
    var wanted := Reserve(session, w.mem.store, request);
    if wanted.Ok? {
      ReserveFits(session, w, w.mem.store, request);
    }
    PersistKeeps(session, w, wanted, w.tickets, io);
    CountersKeep(session, Persist(w, wanted, w.tickets, io), w.tickets + 1,
                 if wanted.Ok? && io.Written? then Some(0) else w.tries);
  }

  lemma OthersKeep(session: nat, w: World, p: Proposal)
    requires Invariant(session, w) && Foreign(session, p) && Deliver(w.node, p).Ok?
    ensures Invariant(session, w.(node := Deliver(w.node, p).value.n))
  {
    ForeignKeepsRecord(session, w.node, p);
    FramesAreSent(session, w);
    hide Deliver, Invariant;
    NetworkKeeps(session, w, w.(node := Deliver(w.node, p).value.n));
  }

  lemma FramesAreSent(session: nat, w: World)
    requires Invariant(session, w)
    ensures forall m | m in w.frames :: m in w.sent
  {}

  lemma TurnAwayKeeps(session: nat, w: World, msg: Message)
    requires Invariant(session, w) && msg in w.frames
    ensures Invariant(session, w.(frames := w.frames - multiset{msg}, answered := w.answered + {(msg, SATURATED)}))
  {
    FramesAreSent(session, w);
    hide Invariant;
    NetworkKeeps(session, w, w.(frames := w.frames - multiset{msg}, answered := w.answered + {(msg, SATURATED)}));
  }

  lemma DuplicateKeeps(session: nat, w: World, msg: Message)
    requires Invariant(session, w) && msg in w.sent
    ensures Invariant(session, w.(frames := w.frames + multiset{msg}))
  {
    FramesAreSent(session, w);
    hide Invariant;
    NetworkKeeps(session, w, w.(frames := w.frames + multiset{msg}));
  }

  // ---- Every move, every run ----

  lemma TakeKeeps(session: nat, w: World, move: Move)
    requires Invariant(session, w)
    ensures Invariant(session, Take(session, w, move))
  {
    hide Invariant, Persist, Confirm, Begin, Booked, Received, Arrived, CanArrive, Deliver, Erase, Foreign, Granted,
      MessageFits, Sent, Transmitted;
    match move
    case Crash => CrashKeeps(session, w); CountersKeep(session, w.(mem := w.disk), w.tickets, None);
    case BeginAcquire(instance, io) => BeginKeeps(session, w, instance, io);
    case ConfirmAcquire(epoch, io) => if Granted(w, epoch) { ConfirmKeeps(session, w, epoch, io); }
    case ReserveCommand(request, io) => if Erase(request) == request { ReserveKeeps(session, w, request, io); }
    case SendAcquire =>
      if w.mem.store.pending.Some? {
        PendingFits(session, w);
        SentKeeps(session, w, AcquireMsg(w.mem.store.pending.value.expected, w.mem.store.pending.value.instance));
      }
    case SendCommand =>
      if Flying(w.mem).Some? { TransmitKeeps(session, w); }
    case Receive(response, io) => ReceiveKeeps(session, w, response, io);
    case Arrive(msg, c) => if CanArrive(w, msg, c) { ArriveKeeps(session, w, msg, c); }
    case TurnAway(msg) => if msg in w.frames { TurnAwayKeeps(session, w, msg); }
    case Duplicate(msg) => if msg in w.sent { DuplicateKeeps(session, w, msg); }
    case Others(p) => if Foreign(session, p) && Deliver(w.node, p).Ok? { OthersKeep(session, w, p); }
  }

  lemma InitialFits(session: nat, w: World)
    requires Initial(session, w)
    ensures Invariant(session, w)
  {}

  lemma {:induction false} PlayKeeps(session: nat, w: World, moves: seq<Move>)
    requires Invariant(session, w)
    ensures Invariant(session, Play(session, w, moves))
    decreases |moves|
  {
    hide Invariant, Take;
    if moves != [] {
      TakeKeeps(session, w, moves[0]);
      PlayKeeps(session, Take(session, w, moves[0]), moves[1..]);
    }
  }

  /** Over every run, with a client that releases whatever is rejected: no identity is executed twice,
      and every acknowledged command was executed, once, under its identity and with its request. */
  lemma AtMostOnceAlways(session: nat, w: World, moves: seq<Move>)
    requires Initial(session, w)
    ensures
      var end := Play(session, w, moves);
      && (forall i, j | 0 <= i < j < |end.executed| :: !SameIdentity(end.executed[i].id, end.executed[j].id))
      && (forall m | m in end.acked :: m.CommandMsg? && Done(end.executed, m.id, m.request))
  {
    InitialFits(session, w);
    PlayKeeps(session, w, moves);
    hide Play, Fits, AnswersTrue, Erase, Ahead, Done;
  }

  /** Of all the moves of this session's client, server and network, only the execution that enters the
      history changes the Broker. */
  lemma OnlyExecutionChangesBroker(session: nat, w: World, move: Move)
    requires Invariant(session, w) && !move.Others?
    ensures
      var w' := Take(session, w, move);
      w'.node.broker != w.node.broker ==>
        move.Arrive? && move.msg.CommandMsg? &&
        w'.executed == w.executed + [Execution(move.msg.id, move.c, move.msg.ticket)]
  {
    hide Invariant, Confirm, Begin, Reserve, Wanted, Arrived, CanArrive, Deliver, Erase, Granted;
    if move.Arrive? && CanArrive(w, move.msg, move.c) {
      ArrivalChanges(session, w, move.msg, move.c);
    }
  }

  lemma ArrivalChanges(session: nat, w: World, msg: Message, c: Command)
    requires Invariant(session, w) && CanArrive(w, msg, c)
    ensures
      var w' := Arrived(session, w, msg, c);
      w'.node.broker != w.node.broker ==>
        msg.CommandMsg? && w'.executed == w.executed + [Execution(msg.id, c, msg.ticket)]
  {
    assert msg in w.sent && MessageFits(session, w.mem.store, msg);
    var p := ProposalFor(session, msg, c);
    if msg.CommandMsg? {
      Outcomes(w.node, p);
    } else {
      AcquireIs(session, w.node, msg.expected, msg.instance);
    }
    ArrivedIs(session, w, msg, c);
    hide Deliver, Arrived, Executes, Invariant;
  }

  /** The retry loop of the client is a run of moves of this world: it sends the command in flight once
      per attempt and then receives the settling response, if there is one. */
  lemma {:induction false} LoopIsRun(session: nat, w: World, attempts: nat, response: Response, io: Write)
    requires Flying(w.mem).Some? && (Flying(w.mem).value, response) in w.answered
    ensures
      var w' := Play(session, w, seq(attempts, i => SendCommand) + [Receive(response, io)]);
      var id := Flying(w.mem).value.id;
      Copies(w'.mem.store, w'.disk.store) == Absorb(Copies(w.mem.store, w.disk.store), id, response, io)
    decreases attempts
  {
    var moves := seq(attempts, i => SendCommand) + [Receive(response, io)];
    if attempts == 0 {
      assert moves == [Receive(response, io)];
      assert moves[1..] == [];
    } else {
      assert moves[0] == SendCommand;
      assert moves[1..] == seq(attempts - 1, i => SendCommand) + [Receive(response, io)];
      LoopIsRun(session, Take(session, w, SendCommand), attempts - 1, response, io);
    }
    hide Deliver, Acknowledge, Release;
  }
}
