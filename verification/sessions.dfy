/** Replicated command sessions: what one committed proposal does to the Broker and to the session
    table, and what that guarantees over every run of proposals. */
module Sessions {
  import opened Order
  import opened BrokerState
  import opened BrokerMachine

  const MAX_SESSIONS: nat := 4096

  /** Who sends a command: one session, under one owner epoch and instance, with a sequence number. */
  datatype Identity = Identity(session: nat, epoch: nat, instance: Option<nat>, sequence: nat)

  datatype Request = Run(c: Command) | Acquire(session: nat, expected: nat, instance: nat)

  datatype Proposal = Proposal(identity: Option<Identity>, request: Request)

  datatype Disposition = Committed | Refused | Unknown

  datatype FenceCode = StaleFence | Conflict | SessionCapacity

  /** A domain error of an executed command, a refusal by the session fence, or a server whose request
      queue was full. */
  datatype Failure = Domain(error: Error) | Fenced(code: FenceCode) | Saturated

  datatype Response =
    | RaftControl
    | OwnerAcquired(epoch: nat)
    | Success(reply: Reply)
    | ApplicationError(failure: Failure, disposition: Disposition)

  datatype Last = Last(sequence: nat, command: Command, response: Response)

  datatype Record = Record(epoch: nat, instance: Option<nat>, last: Option<Last>)

  datatype Node = Node(broker: Machine, sessions: map<nat, Record>)

  datatype Delivered = Delivered(n: Node, response: Response)

  /** A proposal that cannot have come from a correct proposer stops the replica. */
  datatype Fatal = InvalidData

  // ---- Retry matching ----

  /** The request as the caller wrote it: server clocks and capacity limits are left out. */
  function Erase(c: Command): Command {
    match c
    case EnsureNamespace(ns, _) => EnsureNamespace(ns, 0)
    case PublishTask(ns, task, objective, _, _) => PublishTask(ns, task, objective, 0, 0)
    case EnsureGroup(ns, group, _) => EnsureGroup(ns, group, 0)
    case JoinGroup(group, member, capabilities, _, _) => JoinGroup(group, member, capabilities, 0, 0)
    case Heartbeat(group, member, generation, _) => Heartbeat(group, member, generation, 0)
    case ClaimTask(group, member, term, generation, lease, _, duration) =>
      ClaimTask(group, member, term, generation, lease, 0, duration)
    case RenewLease(task, group, member, term, generation, epoch, lease, _, duration) =>
      RenewLease(task, group, member, term, generation, epoch, lease, 0, duration)
    case CompleteTask(task, group, member, term, generation, epoch, lease, result, _) =>
      CompleteTask(task, group, member, term, generation, epoch, lease, result, 0)
    case LeaveGroup(_, _, _) => c
    case ReapStaleMembers(_, _) => c
    case PruneCompleted(_, _) => c
    case AdvanceTerm(_, _) => c
  }

  /** Field by field, as retries are matched. */
  predicate SameRequest(a: Command, b: Command) {
    match a
    case EnsureNamespace(ns, _) => b.EnsureNamespace? && ns == b.ns
    case PublishTask(ns, task, objective, _, _) =>
      b.PublishTask? && ns == b.ns && task == b.task && objective == b.objective
    case EnsureGroup(ns, group, _) => b.EnsureGroup? && ns == b.ns && group == b.group
    case JoinGroup(group, member, capabilities, _, _) =>
      b.JoinGroup? && group == b.group && member == b.member && capabilities == b.capabilities
    case Heartbeat(group, member, generation, _) =>
      b.Heartbeat? && group == b.group && member == b.member && generation == b.expectedGeneration
    case ClaimTask(group, member, term, generation, lease, _, duration) =>
      && b.ClaimTask? && group == b.group && member == b.member && term == b.expectedTerm
      && generation == b.expectedGeneration && lease == b.lease && duration == b.duration
    case RenewLease(task, group, member, term, generation, epoch, lease, _, duration) =>
      && b.RenewLease? && task == b.task && group == b.group && member == b.member && term == b.expectedTerm
      && generation == b.expectedGeneration && epoch == b.expectedEpoch && lease == b.lease && duration == b.duration
    case CompleteTask(task, group, member, term, generation, epoch, lease, result, _) =>
      && b.CompleteTask? && task == b.task && group == b.group && member == b.member && term == b.expectedTerm
      && generation == b.expectedGeneration && epoch == b.expectedEpoch && lease == b.lease && result == b.result
    case LeaveGroup(_, _, _) => a == b
    case ReapStaleMembers(_, _) => a == b
    case PruneCompleted(_, _) => a == b
    case AdvanceTerm(_, _) => a == b
  }

  /** Retry matching is equality of requests with server clocks and limits erased; in particular it is
      an equivalence. */
  lemma SameRequestIsErasure(a: Command, b: Command)
    ensures SameRequest(a, b) <==> Erase(a) == Erase(b)
  {}

  // ---- One proposal ----

  function Reject(n: Node, code: FenceCode): Delivered {
    Delivered(n, ApplicationError(Fenced(code), Refused))
  }

  function ApplyCommand(n: Node, c: Command): Delivered {
    var ran := Exec(n.broker, c);
    Delivered(n.(broker := ran.m),
              match ran.reply {
                case Ok(reply) => Success(reply) case Err(e) => ApplicationError(Domain(e), Committed) })
  }

  /** Why an identified command is not executed, or that it is. */
  datatype Verdict = Execute | Repeat(response: Response) | Refuse(code: FenceCode)

  function Judge(sessions: map<nat, Record>, id: Identity, c: Command): Verdict {
    if id.session in sessions then
      var record := sessions[id.session];
      if id.epoch != record.epoch || id.instance != record.instance then Refuse(StaleFence)
      else if record.last.Some? then
        var last := record.last.value;
        if id.sequence < last.sequence then Refuse(StaleFence)
        else if id.sequence > last.sequence then Execute
        else if SameRequest(c, last.command) then Repeat(last.response)
        else Refuse(Conflict)
      else if id.sequence != 1 then Refuse(StaleFence)
      else Execute
    else if id.epoch != 1 || id.instance.Some? then Refuse(StaleFence)
    else if |sessions| >= MAX_SESSIONS then Refuse(SessionCapacity)
    else Execute
  }

  function ApplyIdentified(n: Node, id: Identity, c: Command): Delivered {
    match Judge(n.sessions, id, c)
    case Refuse(code) => Reject(n, code)
    case Repeat(response) => Delivered(n, response)
    case Execute =>
      var applied := ApplyCommand(n, c);
      var record := Record(id.epoch, id.instance, Some(Last(id.sequence, c, applied.response)));
      Delivered(applied.n.(sessions := n.sessions[id.session := record]), applied.response)
  }

  function AcquireOwner(n: Node, session: nat, expected: nat, instance: nat): Delivered {
    if session !in n.sessions then
      if expected != 1 then Reject(n, StaleFence)
      else if |n.sessions| >= MAX_SESSIONS then Reject(n, SessionCapacity)
      else Delivered(n.(sessions := n.sessions[session := Record(1, Some(instance), None)]), OwnerAcquired(1))
    else
      var record := n.sessions[session];
      if record.instance == Some(instance) &&
         (record.epoch == expected || (expected < U64_MAX && record.epoch == expected + 1)) then
        Delivered(n, OwnerAcquired(record.epoch))
      else if record.epoch != expected then Reject(n, StaleFence)
      else if record.epoch >= U64_MAX then Reject(n, SessionCapacity)
      else Delivered(n.(sessions := n.sessions[session := Record(record.epoch + 1, Some(instance), None)]),
                     OwnerAcquired(record.epoch + 1))
  }

  /** Epochs and sequences are positive by construction; zero does not decode. */
  predicate Decodes(p: Proposal) {
    && (p.identity.Some? ==> p.identity.value.epoch > 0 && p.identity.value.sequence > 0)
    && (p.request.Acquire? ==> p.identity.None? && p.request.expected > 0)
  }

  function Deliver(n: Node, p: Proposal): Result<Delivered, Fatal> {
    if !Decodes(p) then Err(InvalidData)
    else
      match p.request
      case Acquire(session, expected, instance) => Ok(AcquireOwner(n, session, expected, instance))
      case Run(c) => Ok(if p.identity.Some? then ApplyIdentified(n, p.identity.value, c) else ApplyCommand(n, c))
  }

  // ---- What one proposal can do ----

  /** The proposal is identified and the Broker executes it. */
  predicate Executes(n: Node, p: Proposal) {
    Decodes(p) && p.identity.Some? && p.request.Run? && Judge(n.sessions, p.identity.value, p.request.c).Execute?
  }

  predicate IsCommitted(r: Response) {
    r.Success? || (r.ApplicationError? && r.disposition == Committed && r.failure.Domain?)
  }

  predicate IsRejection(r: Response) {
    r.ApplicationError? && r.disposition == Refused
  }

  predicate IsFenced(r: Response) {
    IsRejection(r) && r.failure.Fenced?
  }

  ghost predicate StoredCommitted(sessions: map<nat, Record>) {
    forall k :: k in sessions && sessions[k].last.Some? ==> IsCommitted(sessions[k].last.value.response)
  }

  /** The caller is told what the Broker answered: its reply, or its error as one that was committed. */
  predicate Tells(r: Response, answer: Result<Reply, Error>) {
    match answer
    case Ok(reply) => r.Success? && r.reply == reply
    case Err(e) => r.ApplicationError? && r.disposition == Committed && r.failure.Domain? && r.failure.error == e
  }

  /** An executed command is answered with what the Broker answered it, and recorded with that response and
      nothing else; anything else leaves Broker and table alone and is answered by a rejection or by the
      recorded response. */
  lemma Outcomes(n: Node, p: Proposal)
    requires Decodes(p) && p.identity.Some?
    ensures Deliver(n, p).Ok?
    ensures
      var d, id := Deliver(n, p).value, p.identity.value;
      if Executes(n, p) then
        && d.n.broker == Exec(n.broker, p.request.c).m && Tells(d.response, Exec(n.broker, p.request.c).reply)
        && IsCommitted(d.response) && id.session in d.n.sessions
        && d.n.sessions[id.session] == Record(id.epoch, id.instance, Some(Last(id.sequence, p.request.c, d.response)))
        && (forall k :: k in d.n.sessions <==> k in n.sessions || k == id.session)
        && (forall k :: k in n.sessions && k != id.session ==> d.n.sessions[k] == n.sessions[k])
      else
        && d.n == n
        && (IsFenced(d.response) ||
            (id.session in n.sessions && n.sessions[id.session].last.Some? &&
             d.response == n.sessions[id.session].last.value.response))
  {
    hide Exec;
  }

  /** A command without identity is always executed, and leaves no trace in the table. */
  lemma UnidentifiedOutcome(n: Node, p: Proposal)
    requires Decodes(p) && p.identity.None? && p.request.Run?
    ensures Deliver(n, p).Ok?
    ensures
      var d := Deliver(n, p).value;
      && d.n.broker == Exec(n.broker, p.request.c).m && Tells(d.response, Exec(n.broker, p.request.c).reply)
      && d.n.sessions == n.sessions
  {
    hide Exec;
  }

  /** The identity is the one that its session may use next. */
  predicate IsNext(sessions: map<nat, Record>, id: Identity) {
    if id.session in sessions then
      var record := sessions[id.session];
      && id.epoch == record.epoch && id.instance == record.instance
      && (if record.last.Some? then record.last.value.sequence < id.sequence else id.sequence == 1)
    else id.epoch == 1 && id.instance.None? && |sessions| < 4096
  }

  /** The identity repeats the one that its session used last. */
  predicate IsLast(sessions: map<nat, Record>, id: Identity) {
    && id.session in sessions
    && var record := sessions[id.session];
       && id.epoch == record.epoch && id.instance == record.instance
       && record.last.Some? && record.last.value.sequence == id.sequence
  }

  /** Exactly the next identity is executed; the last one is answered again if the request is the same and
      in conflict if it is not; a new session finds the table full; and everybody else is stale. */
  lemma Verdicts(n: Node, p: Proposal)
    requires Decodes(p) && p.identity.Some?
    ensures Deliver(n, p).Ok?
    ensures
      var d, id, c := Deliver(n, p).value, p.identity.value, p.request.c;
      && (Executes(n, p) <==> IsNext(n.sessions, id))
      && (!Executes(n, p) ==>
            if IsLast(n.sessions, id) then
              var last := n.sessions[id.session].last.value;
              d.response == (if Erase(c) == Erase(last.command) then last.response
                             else ApplicationError(Fenced(Conflict), Refused))
            else if id.session !in n.sessions && id.epoch == 1 && id.instance.None? then
              |n.sessions| >= 4096 && d.response == ApplicationError(Fenced(SessionCapacity), Refused)
            else d.response == ApplicationError(Fenced(StaleFence), Refused))
  {
    hide Exec, SameRequest, Erase;
    if p.identity.value.session in n.sessions && n.sessions[p.identity.value.session].last.Some? {
      SameRequestIsErasure(p.request.c, n.sessions[p.identity.value.session].last.value.command);
    }
  }

  /** Ownership of a session is given to whoever knows its epoch, and again to whoever has just been given
      it; every new owner starts a new epoch with nothing recorded, and nothing else changes. */
  lemma AcquireOutcomes(n: Node, p: Proposal)
    requires Decodes(p) && p.request.Acquire?
    ensures Deliver(n, p).Ok?
    ensures
      var d, k, owner := Deliver(n, p).value, p.request.session, Some(p.request.instance);
      var expected := p.request.expected;
      var again := k in n.sessions && n.sessions[k].instance == owner &&
                   (n.sessions[k].epoch == expected || n.sessions[k].epoch == expected + 1 <= U64_MAX);
      && d.n.broker == n.broker
      && (forall j :: j in n.sessions && j != k ==> j in d.n.sessions && d.n.sessions[j] == n.sessions[j])
      && (d.response.OwnerAcquired? <==>
            if k in n.sessions then again || (n.sessions[k].epoch == expected < U64_MAX)
            else expected == 1 && |n.sessions| < 4096)
      && (d.response.OwnerAcquired? ==>
            && k in d.n.sessions && d.n.sessions.Keys == n.sessions.Keys + {k}
            && d.response.epoch == d.n.sessions[k].epoch && d.n.sessions[k].instance == owner
            && (if again then d.n == n
                else d.n.sessions[k].last.None? &&
                     d.n.sessions[k].epoch == (if k in n.sessions then n.sessions[k].epoch + 1 else 1)))
      && (!d.response.OwnerAcquired? ==> d.n == n && IsFenced(d.response))
  {}

  lemma StoredStaysCommitted(n: Node, p: Proposal)
    requires StoredCommitted(n.sessions) && Deliver(n, p).Ok?
    ensures StoredCommitted(Deliver(n, p).value.n.sessions)
  {
    hide Exec;
  }

  /** An equivalent retry of the last executed identity gets the stored response and changes nothing. */
  lemma RetryRepeats(n: Node, p: Proposal)
    requires Decodes(p) && p.identity.Some? && p.request.Run? && p.identity.value.session in n.sessions
    requires
      var id, record := p.identity.value, n.sessions[p.identity.value.session];
      && id.epoch == record.epoch && id.instance == record.instance && record.last.Some?
      && id.sequence == record.last.value.sequence && SameRequest(p.request.c, record.last.value.command)
    ensures Deliver(n, p) == Ok(Delivered(n, n.sessions[p.identity.value.session].last.value.response))
  {}

  lemma TableStaysBounded(n: Node, p: Proposal)
    requires |n.sessions| <= MAX_SESSIONS && Deliver(n, p).Ok?
    ensures |Deliver(n, p).value.n.sessions| <= MAX_SESSIONS
  {}

  /** From `a` to `b` a session only moves forward: its epoch never falls, an epoch has one owner
      instance, and within an epoch the recorded sequence never falls. */
  predicate Forward(a: Record, b: Record) {
    || a.epoch < b.epoch
    || (&& a.epoch == b.epoch && a.instance == b.instance
        && (a.last.Some? ==> b.last.Some? && a.last.value.sequence <= b.last.value.sequence
                             && (a.last.value.sequence == b.last.value.sequence ==> a.last == b.last)))
  }

  ghost predicate AllForward(a: map<nat, Record>, b: map<nat, Record>) {
    forall k :: k in a ==> k in b && Forward(a[k], b[k])
  }

  lemma DeliverForward(n: Node, p: Proposal)
    requires Deliver(n, p).Ok?
    ensures AllForward(n.sessions, Deliver(n, p).value.n.sessions)
  {
    hide Exec, SameRequest;
  }

  // ---- Whole runs ----

  /** The replica after a run of committed proposals; it stops at one that does not decode. */
  function NodeAfter(n: Node, log: seq<Proposal>): Node
    decreases |log|
  {
    if log == [] then n
    else match Deliver(n, log[0]) { case Err(_) => n case Ok(d) => NodeAfter(d.n, log[1..]) }
  }

  lemma ForwardTransitive(a: map<nat, Record>, b: map<nat, Record>, c: map<nat, Record>)
    requires AllForward(a, b) && AllForward(b, c)
    ensures AllForward(a, c)
  {}

  /** Session safety over every run: epochs never fall, one owner instance per epoch, sequences rise
      and a recorded outcome is replaced only by a later one; the table stays within its bound and
      every recorded outcome is a committed one. */
  lemma {:induction false} SessionsMoveForward(n: Node, log: seq<Proposal>)
    ensures AllForward(n.sessions, NodeAfter(n, log).sessions)
    ensures |n.sessions| <= MAX_SESSIONS ==> |NodeAfter(n, log).sessions| <= MAX_SESSIONS
    ensures StoredCommitted(n.sessions) ==> StoredCommitted(NodeAfter(n, log).sessions)
    decreases |log|
  {
    hide Deliver, AllForward, StoredCommitted;
    if log == [] {
      ForwardItself(n.sessions);
    } else if Deliver(n, log[0]).Err? {
      ForwardItself(n.sessions);
    } else {
      var n' := Deliver(n, log[0]).value.n;
      DeliverForward(n, log[0]);
      if |n.sessions| <= MAX_SESSIONS {
        TableStaysBounded(n, log[0]);
      }
      if StoredCommitted(n.sessions) {
        StoredStaysCommitted(n, log[0]);
      }
      SessionsMoveForward(n', log[1..]);
      ForwardTransitive(n.sessions, n'.sessions, NodeAfter(n', log[1..]).sessions);
    }
  }

  lemma ForwardItself(a: map<nat, Record>)
    ensures AllForward(a, a)
  {}

  predicate SameIdentity(a: Identity, b: Identity) {
    a.session == b.session && a.epoch == b.epoch && a.sequence == b.sequence
  }

  lemma RecordedNotExecuted(n: Node, p: Proposal, id: Identity)
    requires p.identity.Some? && SameIdentity(p.identity.value, id) && id.session in n.sessions
    requires
      var record := n.sessions[id.session];
      record.epoch > id.epoch ||
      (record.epoch == id.epoch && record.last.Some? && record.last.value.sequence >= id.sequence)
    ensures !Executes(n, p)
  {}

  /** At most once: after a command was executed under an identity, no later proposal with the same
      session, epoch and sequence is executed, whatever was committed in between. */
  lemma AtMostOnce(n: Node, p: Proposal, log: seq<Proposal>, q: Proposal)
    requires Executes(n, p) && q.identity.Some? && SameIdentity(p.identity.value, q.identity.value)
    ensures Deliver(n, p).Ok? && !Executes(NodeAfter(Deliver(n, p).value.n, log), q)
  {
    Outcomes(n, p);
    hide Deliver, Executes, Judge, NodeAfter;
    var n' := Deliver(n, p).value.n;
    SessionsMoveForward(n', log);
    var id := p.identity.value;
    assert id.session in n'.sessions;
    assert Forward(n'.sessions[id.session], NodeAfter(n', log).sessions[id.session]);
    RecordedNotExecuted(NodeAfter(n', log), q, id);
  }

  /** As long as its record stands, an executed command answers every equivalent retry with the
      response it first got, whatever was committed in between. */
  lemma RetryAfterRun(n: Node, p: Proposal, log: seq<Proposal>, q: Proposal)
    requires Executes(n, p) && Decodes(q) && q.request.Run?
    requires q.identity == p.identity && SameRequest(q.request.c, p.request.c)
    requires Deliver(n, p).Ok?
    requires
      var n' := NodeAfter(Deliver(n, p).value.n, log);
      var id := p.identity.value;
      id.session in n'.sessions && n'.sessions[id.session].epoch == id.epoch &&
      n'.sessions[id.session].last.Some? && n'.sessions[id.session].last.value.sequence == id.sequence
    ensures
      var n' := NodeAfter(Deliver(n, p).value.n, log);
      Deliver(n', q) == Ok(Delivered(n', Deliver(n, p).value.response))
  {
    Outcomes(n, p);
    hide Deliver, Judge, NodeAfter, SameRequest, Erase;
    var d, id := Deliver(n, p).value, p.identity.value;
    var n' := NodeAfter(d.n, log);
    SessionsMoveForward(d.n, log);
    assert Forward(d.n.sessions[id.session], n'.sessions[id.session]);
    RetryRepeats(n', q);
  }
}
