/** The consensus snapshot container: a fixed header, the Broker checkpoint and the session table. */
module Snapshots {
  import opened Order
  import opened BrokerState
  import opened Checkpoints
  import opened Rebuilding
  import opened Sessions

  newtype byte = x: int | 0 <= x < 256

  // ---- Big-endian integers ----

  function Power256(width: nat): nat {
    if width == 0 then 1 else 256 * Power256(width - 1)
  }

  function BigEndian(value: nat, width: nat): seq<byte> {
    if width == 0 then [] else BigEndian(value / 256, width - 1) + [(value % 256) as byte]
  }

  function FromBigEndian(bytes: seq<byte>): nat {
    if bytes == [] then 0 else FromBigEndian(bytes[..|bytes| - 1]) * 256 + bytes[|bytes| - 1] as nat
  }

  lemma {:induction false} BigEndianRoundTrip(value: nat, width: nat)
    requires value < Power256(width)
    ensures |BigEndian(value, width)| == width && FromBigEndian(BigEndian(value, width)) == value
    decreases width
  {
    if width > 0 {
      BigEndianRoundTrip(value / 256, width - 1);
      var bytes := BigEndian(value, width);
      assert bytes[..|bytes| - 1] == BigEndian(value / 256, width - 1);
    }
  }

  lemma U64Fits(value: nat)
    requires value <= U64_MAX
    ensures value < Power256(8) && 1 < Power256(4)
  {}

  // ---- The container ----

  const MAGIC: seq<byte> := [65, 66, 67, 83, 78, 80, 48, 49]
  const VERSION: nat := 1
  const HEADER: nat := 28

  /** A stored session as it is written: the outcome as three optional fields. */
  datatype WireRecord = WireRecord(
    epoch: nat, instance: Option<nat>, sequence: Option<nat>, command: Option<Command>, response: Option<Response>)

  datatype Sidecar = Sidecar(version: nat, records: seq<(nat, WireRecord)>)

  /** The payload formats, of which only that they read back what they wrote is used. */
  datatype Codec = Codec(
    writeCheckpoint: Checkpoint -> seq<byte>, readCheckpoint: seq<byte> -> Option<Checkpoint>,
    writeSidecar: Sidecar -> seq<byte>, readSidecar: seq<byte> -> Option<Sidecar>)

  ghost predicate Faithful(codec: Codec) {
    && (forall cp: Checkpoint :: codec.readCheckpoint(codec.writeCheckpoint(cp)) == Some(cp))
    && (forall sidecar: Sidecar :: codec.readSidecar(codec.writeSidecar(sidecar)) == Some(sidecar))
  }

  datatype SnapshotError =
    | LengthExceeds | Truncated | UnsupportedVersion(version: nat) | LengthOverflow | LengthMismatch | Malformed
    | BadCheckpoint(cause: CheckpointError) | TooManySessions | ZeroCounter | PartialOutcome | NoApplicationResult
    | DuplicateSession(session: nat) | NotPersisted | IncompletePair

  function ToWire(r: Record): WireRecord {
    match r.last
    case None => WireRecord(r.epoch, r.instance, None, None, None)
    case Some(last) => WireRecord(r.epoch, r.instance, Some(last.sequence), Some(last.command), Some(last.response))
  }

  function WireRecords(sessions: map<nat, Record>): map<nat, WireRecord> {
    map k | k in sessions :: ToWire(sessions[k])
  }

  function EncodeSnapshot(codec: Codec, cp: Checkpoint, sessions: map<nat, Record>): Result<seq<byte>, SnapshotError> {
    var broker := codec.writeCheckpoint(cp);
    var sidecar := codec.writeSidecar(Sidecar(VERSION, Listed(WireRecords(sessions))));
    if |broker| > U64_MAX || |sidecar| > U64_MAX then Err(LengthExceeds)
    else Ok(MAGIC + BigEndian(VERSION, 4) + BigEndian(|broker|, 8) + BigEndian(|sidecar|, 8) + broker + sidecar)
  }

  /** A stored error is a committed one, whatever an older writer said about it. */
  function Normalize(r: Response): Response {
    match r
    case ApplicationError(failure, _) => ApplicationError(failure, Committed)
    case _ => r
  }

  /** A claim reply names a lease completely or not at all. */
  predicate ClaimShaped(r: Reply) {
    r.ClaimReply? ==>
      || (r.claimed.Some? && r.objective.Some? && r.claimedRevision.Some? &&
          r.leaseId.Some? && r.leaseEpoch.Some? && r.expiresAt.Some?)
      || (r.claimed.None? && r.objective.None? && r.claimedRevision.None? &&
          r.leaseId.None? && r.leaseEpoch.None? && r.expiresAt.None?)
  }

  predicate IsApplicationResult(r: Response) {
    r.ApplicationError? || (r.Success? && ClaimShaped(r.reply))
  }

  function ParseOutcome(w: WireRecord): Result<Option<Last>, SnapshotError> {
    if w.sequence.None? && w.command.None? && w.response.None? then Ok(None)
    else if w.sequence.None? || w.command.None? || w.response.None? then Err(PartialOutcome)
    else if w.sequence.value == 0 then Err(ZeroCounter)
    else if !IsApplicationResult(Normalize(w.response.value)) then Err(NoApplicationResult)
    else Ok(Some(Last(w.sequence.value, w.command.value, Normalize(w.response.value))))
  }

  function ParseRecord(w: WireRecord): Result<Record, SnapshotError> {
    if w.epoch == 0 then Err(ZeroCounter)
    else match ParseOutcome(w) { case Err(e) => Err(e) case Ok(last) => Ok(Record(w.epoch, w.instance, last)) }
  }

  function ReadCheckpoint(codec: Codec, data: seq<byte>): Result<Checkpoint, SnapshotError> {
    match codec.readCheckpoint(data)
    case None => Err(Malformed)
    case Some(cp) => match FromCheckpoint(cp) { case Err(e) => Err(BadCheckpoint(e)) case Ok(_) => Ok(cp) }
  }

  function ReadSessions(codec: Codec, data: seq<byte>): Result<map<nat, Record>, SnapshotError> {
    match codec.readSidecar(data)
    case None => Err(Malformed)
    case Some(sidecar) =>
      if sidecar.version != VERSION then Err(UnsupportedVersion(sidecar.version))
      else if |sidecar.records| > MAX_SESSIONS then Err(TooManySessions)
      else Load(sidecar.records, map[], ParseRecord, (id: nat) => DuplicateSession(id))
  }

  function DecodeSnapshot(codec: Codec, data: seq<byte>): Result<(Checkpoint, map<nat, Record>), SnapshotError> {
    if !(MAGIC <= data) then
      match ReadCheckpoint(codec, data) { case Err(e) => Err(e) case Ok(cp) => Ok((cp, map[])) }
    else if |data| < HEADER then Err(Truncated)
    else if FromBigEndian(data[8..12]) != VERSION then Err(UnsupportedVersion(FromBigEndian(data[8..12])))
    else
      var brokerEnd := HEADER + FromBigEndian(data[12..20]);
      var end := brokerEnd + FromBigEndian(data[20..28]);
      if brokerEnd > U64_MAX || end > U64_MAX then Err(LengthOverflow)
      else if end != |data| then Err(LengthMismatch)
      else
        match ReadCheckpoint(codec, data[HEADER..brokerEnd])
        case Err(e) => Err(e)
        case Ok(cp) =>
          match ReadSessions(codec, data[brokerEnd..])
          case Err(e) => Err(e)
          case Ok(sessions) => Ok((cp, sessions))
  }

  // ---- Properties ----

  /** A magic-prefixed input is accepted only if its header accounts for every byte of it. */
  lemma HeaderAccountsForAll(codec: Codec, data: seq<byte>)
    requires MAGIC <= data && DecodeSnapshot(codec, data).Ok?
    ensures |data| >= HEADER && FromBigEndian(data[8..12]) == VERSION
    ensures |data| == HEADER + FromBigEndian(data[12..20]) + FromBigEndian(data[20..28])
    ensures
      var brokerEnd := HEADER + FromBigEndian(data[12..20]);
      && codec.readCheckpoint(data[HEADER..brokerEnd]) == Some(DecodeSnapshot(codec, data).value.0)
      && codec.readSidecar(data[brokerEnd..]).Some?
    ensures FromCheckpoint(DecodeSnapshot(codec, data).value.0).Ok?
    ensures |DecodeSnapshot(codec, data).value.1| <= MAX_SESSIONS
  {
    hide FromCheckpoint, Load, FromBigEndian;
    var brokerEnd := HEADER + FromBigEndian(data[12..20]);
    var sidecar := codec.readSidecar(data[brokerEnd..]).value;
    LoadIs(sidecar.records, map[], ParseRecord, (id: nat) => DuplicateSession(id));
    IdsBound(sidecar.records);
  }

  lemma {:induction false} IdsBound<R(!new)>(records: seq<(nat, R)>)
    ensures |Ids(records)| <= |records|
  {
    if records != [] {
      IdsBound(records[1..]);
      assert records == [records[0]] + records[1..];
      assert Ids(records) == {records[0].0} + Ids(records[1..]);
    }
  }

  /** Session tables that a replica can have: positive counters, committed and complete outcomes. */
  ghost predicate Storable(sessions: map<nat, Record>) {
    |sessions| <= MAX_SESSIONS && forall k :: k in sessions ==> RecordStorable(sessions[k])
  }

  predicate RecordStorable(r: Record) {
    r.epoch > 0 &&
    (r.last.Some? ==>
       r.last.value.sequence > 0 && IsCommitted(r.last.value.response) && IsApplicationResult(r.last.value.response))
  }

  lemma RecordSurvives(r: Record)
    requires RecordStorable(r)
    ensures ParseRecord(ToWire(r)) == Ok(r)
  {}

  lemma HeldBack<R(!new), V(!new), E(!new)>(
    m: map<nat, R>, v: map<nat, V>, records: seq<(nat, R)>, parse: R -> Result<V, E>, loaded: map<nat, V>)
    requires m.Keys == v.Keys && Same(m, records) && Holds(loaded, records, map[], parse) && Ids(records) == m.Keys
    requires forall k | k in m :: parse(m[k]) == Ok(v[k])
    ensures loaded == v
  {}

  lemma ParsesBack<R(!new), V(!new), E(!new)>(
    m: map<nat, R>, v: map<nat, V>, records: seq<(nat, R)>, parse: R -> Result<V, E>)
    requires m.Keys == v.Keys && Same(m, records) && forall k | k in m :: parse(m[k]) == Ok(v[k])
    ensures Parses(records, parse)
  {}

  /** Listing a map and loading the list through a parser that undoes each entry gives the map back. */
  lemma LoadsBack<R(!new), V(!new), E(!new)>(m: map<nat, R>, v: map<nat, V>, parse: R -> Result<V, E>, taken: nat -> E)
    requires m.Keys == v.Keys && forall k | k in m :: parse(m[k]) == Ok(v[k])
    ensures Load(Listed(m), map[], parse, taken) == Ok(v)
  {
    hide *;
    var records := Listed(m);
    ListedIs(m);
    AscendingDistinct(records);
    ListedIds(m);
    LoadIs(records, map[], parse, taken);
    ParsesBack(m, v, records, parse);
    HeldBack(m, v, records, parse, Load(records, map[], parse, taken).value);
  }

  lemma SessionsSurvive(codec: Codec, sessions: map<nat, Record>)
    requires Faithful(codec) && Storable(sessions)
    ensures ReadSessions(codec, codec.writeSidecar(Sidecar(VERSION, Listed(WireRecords(sessions))))) == Ok(sessions)
  {
    var wire := WireRecords(sessions);
    forall k | k in wire ensures ParseRecord(wire[k]) == Ok(sessions[k]) {
      RecordSurvives(sessions[k]);
    }
    hide Listed, Load, ParseRecord, ToWire, RecordStorable;
    ListedSize(wire);
    assert wire.Keys == sessions.Keys && |wire| == |wire.Keys| && |sessions| == |sessions.Keys|;
    LoadsBack(wire, sessions, ParseRecord, (id: nat) => DuplicateSession(id));
  }

  lemma {:induction false} ListedSize<V(!new)>(m: map<nat, V>)
    ensures |Listed(m)| == |m|
    decreases |m|
  {
    if m.Keys != {} {
      var k := MinId(m.Keys);
      assert (m - {k}).Keys == m.Keys - {k};
      ListedSize(m - {k});
    }
  }

  /** Where the fields of an encoded container are. */
  lemma HeaderReadsBack(broker: seq<byte>, sidecar: seq<byte>)
    requires |broker| <= U64_MAX && |sidecar| <= U64_MAX
    ensures
      var data := MAGIC + BigEndian(VERSION, 4) + BigEndian(|broker|, 8) + BigEndian(|sidecar|, 8) + broker + sidecar;
      && MAGIC <= data && |data| == HEADER + |broker| + |sidecar|
      && FromBigEndian(data[8..12]) == VERSION && FromBigEndian(data[12..20]) == |broker|
      && FromBigEndian(data[20..28]) == |sidecar|
      && data[HEADER..HEADER + |broker|] == broker && data[HEADER + |broker|..] == sidecar
  {
    U64Fits(|broker|);
    U64Fits(|sidecar|);
    BigEndianRoundTrip(VERSION, 4);
    BigEndianRoundTrip(|broker|, 8);
    BigEndianRoundTrip(|sidecar|, 8);
    var v, b, s := BigEndian(VERSION, 4), BigEndian(|broker|, 8), BigEndian(|sidecar|, 8);
    var data := MAGIC + v + b + s + broker + sidecar;
    hide BigEndian, FromBigEndian;
    assert data[8..12] == v;
    assert data[12..20] == b;
    assert data[20..28] == s;
  }

  /** A snapshot is written exactly if the length of neither payload exceeds 64 bits: eight bytes of magic,
      the version, the two lengths, and the payloads. */
  lemma ContainerLayout(codec: Codec, cp: Checkpoint, sessions: map<nat, Record>)
    ensures
      var broker, r := codec.writeCheckpoint(cp), EncodeSnapshot(codec, cp, sessions);
      var sidecar := codec.writeSidecar(Sidecar(1, Listed(WireRecords(sessions))));
      && (r.Err? <==> |broker| > 0xFFFF_FFFF_FFFF_FFFF || |sidecar| > 0xFFFF_FFFF_FFFF_FFFF)
      && (r.Err? ==> r.error == LengthExceeds)
      && (r.Ok? ==>
            && |r.value| == 28 + |broker| + |sidecar| && r.value[..8] == [65, 66, 67, 83, 78, 80, 48, 49]
            && FromBigEndian(r.value[8..12]) == 1 && FromBigEndian(r.value[12..20]) == |broker|
            && FromBigEndian(r.value[20..28]) == |sidecar|
            && r.value[28..28 + |broker|] == broker && r.value[28 + |broker|..] == sidecar)
  {
    var broker := codec.writeCheckpoint(cp);
    var sidecar := codec.writeSidecar(Sidecar(VERSION, Listed(WireRecords(sessions))));
    if |broker| <= U64_MAX && |sidecar| <= U64_MAX {
      HeaderReadsBack(broker, sidecar);
    }
    hide BigEndian, FromBigEndian, Listed, WireRecords;
  }

  /** What does not decode is refused: a container is read exactly if it carries the version, its lengths
      add up to its own without exceeding 64 bits, and both payloads are readable. */
  lemma ContainerRead(codec: Codec, data: seq<byte>)
    requires MAGIC <= data
    ensures DecodeSnapshot(codec, data).Ok? <==>
              && |data| >= 28 && FromBigEndian(data[8..12]) == 1
              && 28 + FromBigEndian(data[12..20]) + FromBigEndian(data[20..28]) == |data| <= U64_MAX
              && ReadCheckpoint(codec, data[28..28 + FromBigEndian(data[12..20])]).Ok?
              && ReadSessions(codec, data[28 + FromBigEndian(data[12..20])..]).Ok?
  {
    hide FromBigEndian, ReadCheckpoint, ReadSessions;
  }

  /** Decoding an encoded snapshot gives back the checkpoint and the session table. */
  lemma SnapshotRoundTrip(codec: Codec, cp: Checkpoint, sessions: map<nat, Record>)
    requires Faithful(codec) && FromCheckpoint(cp).Ok? && Storable(sessions)
    requires EncodeSnapshot(codec, cp, sessions).Ok? && |EncodeSnapshot(codec, cp, sessions).value| <= U64_MAX
    ensures DecodeSnapshot(codec, EncodeSnapshot(codec, cp, sessions).value) == Ok((cp, sessions))
  {
    var broker := codec.writeCheckpoint(cp);
    var sidecar := codec.writeSidecar(Sidecar(VERSION, Listed(WireRecords(sessions))));
    HeaderReadsBack(broker, sidecar);
    SessionsSurvive(codec, sessions);
    hide BigEndian, FromBigEndian, ReadSessions, FromCheckpoint, Listed, WireRecords, Storable;
  }
}
