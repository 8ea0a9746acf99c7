/** The durable client session store and the bounded retry of one reserved command. */
module Client {
  import opened Order
  import opened BrokerState
  import opened Sessions

  datatype Owner = Owner(epoch: nat, instance: nat)

  datatype Pending = Pending(expected: nat, instance: nat)

  /** A command with its identity; the request is what the client wrote, without server clocks. */
  datatype Reserved = Reserved(identity: Identity, request: Command)

  datatype Store = Store(owner: Option<Owner>, next: nat, pending: Option<Pending>, inFlight: Option<Reserved>)

  const NewStore := Store(None, 1, None, None)

  datatype StoreError = OperationBlocked | InvalidState | SequenceExhausted | StoreIo

  // ---- The store as a value ----

  /** What a stored state must satisfy to be written or read back. */
  predicate ValidStore(session: nat, st: Store) {
    && st.next > 0
    && (st.owner.Some? ==> st.owner.value.epoch > 0)
    && (st.pending.Some? ==> st.pending.value.expected > 0 && st.inFlight.None?)
    && (st.owner.None? ==> st.next == 1 && st.inFlight.None?)
    && (st.inFlight.Some? ==>
          st.inFlight.value.identity == Identity(session, st.owner.value.epoch, Some(st.owner.value.instance), st.next))
  }

  function Begin(st: Store, instance: nat): Result<Store, StoreError> {
    if st.inFlight.Some? || st.pending.Some? then Err(OperationBlocked)
    else if st.owner.Some? && st.owner.value.instance == instance then Err(OperationBlocked)
    else Ok(st.(pending := Some(Pending(if st.owner.Some? then st.owner.value.epoch else 1, instance))))
  }

  /** A first acquisition may be answered with the expected epoch; a takeover must advance it. */
  predicate AcceptableEpoch(expected: nat, actual: nat, replacing: bool) {
    (expected < U64_MAX && actual == expected + 1) || (!replacing && actual == expected)
  }

  function Confirm(st: Store, epoch: nat): Result<Store, StoreError> {
    if st.pending.None? then Err(InvalidState)
    else if !AcceptableEpoch(st.pending.value.expected, epoch, st.owner.Some?) then Err(InvalidState)
    else Ok(Store(Some(Owner(epoch, st.pending.value.instance)), 1, None, None))
  }

  function Reserve(session: nat, st: Store, request: Command): Result<Store, StoreError> {
    if st.pending.Some? || st.inFlight.Some? then Err(OperationBlocked)
    else if st.next == U64_MAX then Err(SequenceExhausted)
    else if st.owner.None? then Err(OperationBlocked)
    else
      var owner := st.owner.value;
      Ok(st.(inFlight := Some(Reserved(Identity(session, owner.epoch, Some(owner.instance), st.next), request))))
  }

  function Acknowledge(st: Store, id: Identity): Result<Store, StoreError> {
    if st.inFlight.None? || st.inFlight.value.identity != id then Err(InvalidState)
    else if id.sequence >= U64_MAX then Err(SequenceExhausted)
    else Ok(st.(next := id.sequence + 1, inFlight := None))
  }

  function Release(st: Store, id: Identity): Result<Store, StoreError> {
    if st.inFlight.None? || st.inFlight.value.identity != id then Err(InvalidState)
    else Ok(st.(inFlight := None))
  }

  /** No operation builds a state that its own validation would refuse. */
  lemma OperationsKeepValid(session: nat, st: Store, instance: nat, epoch: nat, request: Command, id: Identity)
    requires ValidStore(session, st) && epoch > 0
    ensures Begin(st, instance).Ok? ==> ValidStore(session, Begin(st, instance).value)
    ensures Confirm(st, epoch).Ok? ==> ValidStore(session, Confirm(st, epoch).value)
    ensures Reserve(session, st, request).Ok? ==> ValidStore(session, Reserve(session, st, request).value)
    ensures Acknowledge(st, id).Ok? ==> ValidStore(session, Acknowledge(st, id).value)
    ensures Release(st, id).Ok? ==> ValidStore(session, Release(st, id).value)
  {}

  /** Ownership is asked for exactly by an instance that does not have it, while nothing is under way, and
      is then had under an epoch that the Broker may answer with; numbering starts again. */
  lemma AcquisitionExact(session: nat, st: Store, instance: nat, epoch: nat)
    requires ValidStore(session, st)
    ensures Begin(st, instance).Ok? <==>
              st.pending.None? && st.inFlight.None? && (st.owner.Some? ==> st.owner.value.instance != instance)
    ensures Begin(st, instance).Ok? ==>
              var st' := Begin(st, instance).value;
              && st'.owner == st.owner && st'.next == st.next && st'.inFlight.None? && st'.pending.Some?
              && st'.pending.value.instance == instance
              && (if st.owner.Some? then st'.pending.value.expected == st.owner.value.epoch
                  else st'.pending.value.expected == 1)
    ensures Confirm(st, epoch).Ok? <==>
              && st.pending.Some?
              && (epoch == st.pending.value.expected + 1 <= U64_MAX ||
                  (st.owner.None? && epoch == st.pending.value.expected))
    ensures Confirm(st, epoch).Ok? ==>
              var st' := Confirm(st, epoch).value;
              && st'.owner == Some(Owner(epoch, st.pending.value.instance)) && st'.next == 1
              && st'.pending.None? && st'.inFlight.None?
  {}

  /** A command is reserved exactly by the owner, one at a time, under the next number; acknowledging it
      moves on to the number after, releasing it gives the number back. */
  lemma ReservationExact(session: nat, st: Store, request: Command, id: Identity)
    requires ValidStore(session, st)
    ensures Reserve(session, st, request).Ok? <==>
              st.owner.Some? && st.pending.None? && st.inFlight.None? && st.next != U64_MAX
    ensures Reserve(session, st, request).Ok? ==>
              var st' := Reserve(session, st, request).value;
              && st'.inFlight.Some? && st'.inFlight.value.request == request
              && st'.inFlight.value.identity ==
                   Identity(session, st.owner.value.epoch, Some(st.owner.value.instance), st.next)
              && Release(st', st'.inFlight.value.identity) == Ok(st)
              && (st.next < U64_MAX ==> Acknowledge(st', st'.inFlight.value.identity) == Ok(st.(next := st.next + 1)))
    ensures Acknowledge(st, id).Ok? <==> st.inFlight.Some? && st.inFlight.value.identity == id && id.sequence < U64_MAX
    ensures Release(st, id).Ok? <==> st.inFlight.Some? && st.inFlight.value.identity == id
  {}

  // ---- The store as an object over a file ----

  datatype Write = Written | LostBefore | LostAfter

  class DurableSessionStore {
    const session: nat
    // The file, and the copy in memory.
    var disk: Store
    var state: Store

    ghost predicate Valid()
      reads this
    {
      ValidStore(session, disk) && ValidStore(session, state)
    }

    constructor (session: nat)
      ensures this.session == session && Valid() && disk == NewStore && state == NewStore
    {
      this.session, disk, state := session, NewStore, NewStore;
    }

    /** Start again from the file. */
    method Reopen()
      requires Valid()
      modifies this`state
      ensures Valid() && state == disk
    {
      state := disk;
    }

    /** Replace the file, then the copy in memory: memory never runs ahead of the file. */
    method Commit(next: Store, io: Write) returns (r: Result<(), StoreError>)
      requires Valid()
      modifies this
      ensures Reached(if ValidStore(session, next) then Ok(next) else Err(InvalidState), io,
                      if r.Ok? then None else Some(r.error))
      ensures Valid()
    {
      if !ValidStore(session, next) {
        return Err(InvalidState);
      }
      if io.LostBefore? {
        return Err(StoreIo);
      }
      disk := next;
      if io.LostAfter? {
        return Err(StoreIo);
      }
      state := next;
      r := Ok(());
    }

    /** What every operation promises, given the state it wanted to reach: memory and file are written
        as `Persisted` says, and a failure is the refusal of the operation or of the disk. */
    twostate predicate Reached(wanted: Result<Store, StoreError>, io: Write, failure: Option<StoreError>)
      reads this
    {
      && Copies(state, disk) == Persisted(old(Copies(state, disk)), wanted, io)
      && failure == if wanted.Err? then Some(wanted.error) else if io.Written? then None else Some(StoreIo)
    }

    method BeginAcquisition(instance: nat, io: Write) returns (r: Result<Pending, StoreError>)
      requires Valid()
      modifies this
      ensures Valid() && Reached(Begin(old(state), instance), io, if r.Ok? then None else Some(r.error))
      ensures r.Ok? ==> state.pending == Some(r.value)
    {
      var next := Begin(state, instance);
      if next.Err? {
        return Err(next.error);
      }
      OperationsKeepValid(session, state, instance, 1, AdvanceTerm(0, 0), Identity(0, 0, None, 0));
      var done := Commit(next.value, io);
      if done.Err? {
        return Err(done.error);
      }
      r := Ok(state.pending.value);
    }

    method ConfirmAcquisition(epoch: nat, io: Write) returns (r: Result<Owner, StoreError>)
      requires Valid() && epoch > 0
      modifies this
      ensures Valid() && Reached(Confirm(old(state), epoch), io, if r.Ok? then None else Some(r.error))
      ensures r.Ok? ==> state.owner == Some(r.value)
    {
      var next := Confirm(state, epoch);
      if next.Err? {
        return Err(next.error);
      }
      OperationsKeepValid(session, state, 0, epoch, AdvanceTerm(0, 0), Identity(0, 0, None, 0));
      var done := Commit(next.value, io);
      if done.Err? {
        return Err(done.error);
      }
      r := Ok(state.owner.value);
    }

    method ReserveCommand(request: Command, io: Write) returns (r: Result<Reserved, StoreError>)
      requires Valid()
      modifies this
      ensures Valid() && Reached(Reserve(session, old(state), request), io, if r.Ok? then None else Some(r.error))
      ensures r.Ok? ==> state.inFlight == Some(r.value)
    {
      var next := Reserve(session, state, request);
      if next.Err? {
        return Err(next.error);
      }
      OperationsKeepValid(session, state, 0, 1, request, Identity(0, 0, None, 0));
      var done := Commit(next.value, io);
      if done.Err? {
        return Err(done.error);
      }
      r := Ok(state.inFlight.value);
    }

    method AcknowledgeOutcome(id: Identity, io: Write) returns (r: Result<(), StoreError>)
      requires Valid()
      modifies this
      ensures Valid() && Reached(Acknowledge(old(state), id), io, if r.Ok? then None else Some(r.error))
    {
      var next := Acknowledge(state, id);
      if next.Err? {
        return Err(next.error);
      }
      OperationsKeepValid(session, state, 0, 1, AdvanceTerm(0, 0), id);
      r := Commit(next.value, io);
    }

    method ReleaseRejected(id: Identity, io: Write) returns (r: Result<(), StoreError>)
      requires Valid()
      modifies this
      ensures Valid() && Reached(Release(old(state), id), io, if r.Ok? then None else Some(r.error))
    {
      var next := Release(state, id);
      if next.Err? {
        return Err(next.error);
      }
      OperationsKeepValid(session, state, 0, 1, AdvanceTerm(0, 0), id);
      r := Commit(next.value, io);
    }
  }

  // ---- The bounded retry ----

  /** What one attempt over the network yields. */
  datatype Attempt =
    Answered(reply: Reply) | BrokerError(failure: Failure, disposition: Disposition) | Transport | Protocol

  datatype ExecutionError = StoreFailed(error: StoreError) | AttemptFailed(attempt: Attempt)

  /** Only a lost connection and an explicitly unknown outcome leave the command ambiguous. */
  predicate Ambiguous(a: Attempt) {
    a.Transport? || (a.BrokerError? && a.disposition == Unknown)
  }

  /** The response that an attempt carried, if it carried one. */
  function ResponseOf(a: Attempt): Option<Response> {
    match a
    case Answered(reply) => Some(Success(reply))
    case BrokerError(failure, disposition) => Some(ApplicationError(failure, disposition))
    case _ => None
  }

  /** The response says that the command was executed. */
  predicate Confirms(r: Response) {
    r.Success? || (r.ApplicationError? && r.disposition == Committed)
  }

  /** The state that a response asks the store to reach: past the command, without it, or as it is. */
  function Wanted(st: Store, id: Identity, r: Response): Option<Result<Store, StoreError>> {
    if Confirms(r) then Some(Acknowledge(st, id)) else if IsRejection(r) then Some(Release(st, id)) else None
  }

  datatype Copies = Copies(mem: Store, disk: Store)

  /** Writing a wanted state: the file first, then memory. */
  function Persisted(copies: Copies, wanted: Result<Store, StoreError>, io: Write): Copies {
    if wanted.Err? || io.LostBefore? then copies
    else if io.LostAfter? then copies.(disk := wanted.value)
    else Copies(wanted.value, wanted.value)
  }

  /** What receiving a response does to memory and file. */
  function Absorb(copies: Copies, id: Identity, r: Response, io: Write): Copies {
    match Wanted(copies.mem, id, r)
    case None => copies
    case Some(wanted) => Persisted(copies, wanted, io)
  }

  /** A response to the command in flight, once written: success or a committed error counts the command as
      done, a refusal takes it back, and an unknown outcome leaves it in flight; a failed write changes
      memory not at all. */
  lemma AbsorbedExactly(copies: Copies, id: Identity, r: Response, io: Write)
    requires copies.mem.inFlight.Some? && copies.mem.inFlight.value.identity == id && id.sequence < U64_MAX
    requires r.Success? || r.ApplicationError?
    ensures
      var st, after := copies.mem, Absorb(copies, id, r, io);
      && (!io.Written? ==> after.mem == st) && (io.LostBefore? ==> after.disk == copies.disk)
      && (io.Written? && (r.Success? || r.disposition == Committed) ==>
            after.mem == after.disk == st.(inFlight := None, next := id.sequence + 1))
      && (io.Written? && r.ApplicationError? && r.disposition == Refused ==>
            after.mem == after.disk == st.(inFlight := None))
      && (r.ApplicationError? && r.disposition == Unknown ==> after == copies)
  {}

  /** The attempt that settles the execution: the first unambiguous one, or the last one allowed. */
  function Settling(attempts: seq<Attempt>, max: nat): (i: nat)
    requires 0 < max <= |attempts|
    ensures i < max && (i == max - 1 || !Ambiguous(attempts[i]))
    ensures forall j | 0 <= j < i :: Ambiguous(attempts[j])
  {
    if max == 1 || !Ambiguous(attempts[0]) then 0 else 1 + Settling(attempts[1..], max - 1)
  }

  /** Execute one reserved command, retrying it unchanged while its outcome is ambiguous.  Memory and
      file absorb the settling attempt's response and nothing else; the caller gets the reply, the
      failed attempt, or the failure of the store. */
  method ExecuteReserved(store: DurableSessionStore, reserved: Reserved, attempts: seq<Attempt>, max: nat, io: Write)
    returns (r: Result<Reply, ExecutionError>)
    requires store.Valid() && 0 < max <= |attempts|
    modifies store
    ensures store.Valid()
    ensures
      var last := Settling(attempts, max);
      var settled := attempts[last];
      var before := old(Copies(store.state, store.disk));
      var response := ResponseOf(settled);
      && Copies(store.state, store.disk) ==
           (if response.Some? then Absorb(before, reserved.identity, response.value, io) else before)
      && (forall i | 0 <= i < last ::
            attempts[i].Transport? || (attempts[i].BrokerError? && attempts[i].disposition == Unknown))
      && (last + 1 < max ==>
            settled.Answered? || settled.Protocol? || (settled.BrokerError? && settled.disposition != Unknown))
      && (r.Ok? ==> settled == Answered(r.value))
      && (r.Err? && r.error.AttemptFailed? ==> r.error.attempt == settled && !settled.Answered?)
      && (r.Err? && r.error.StoreFailed? <==>
            && response.Some? && Wanted(before.mem, reserved.identity, response.value).Some?
            && (Wanted(before.mem, reserved.identity, response.value).value.Err? || !io.Written?))
  {
    var attempt := 0;
    while attempt + 1 < max && Ambiguous(attempts[attempt])
      invariant attempt < max && Settling(attempts, max) == attempt + Settling(attempts[attempt..], max - attempt)
      invariant store.state == old(store.state) && store.disk == old(store.disk) && store.Valid()
    {
      assert attempts[attempt..][1..] == attempts[attempt + 1..];
      attempt := attempt + 1;
    }
    assert Settling(attempts, max) == attempt;
    var settled := attempts[attempt];
    match settled {
      case Answered(reply) =>
        var done := store.AcknowledgeOutcome(reserved.identity, io);
        r := if done.Ok? then Ok(reply) else Err(StoreFailed(done.error));
      case BrokerError(_, disposition) =>
        match disposition {
          case Committed =>
            var done := store.AcknowledgeOutcome(reserved.identity, io);
            r := Err(if done.Ok? then AttemptFailed(settled) else StoreFailed(done.error));
          case Refused =>
            var done := store.ReleaseRejected(reserved.identity, io);
            r := Err(if done.Ok? then AttemptFailed(settled) else StoreFailed(done.error));
          case Unknown => r := Err(AttemptFailed(settled));
        }
      case Transport => r := Err(AttemptFailed(settled));
      case Protocol => r := Err(AttemptFailed(settled));
    }
  }
}
