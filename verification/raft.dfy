/** The replicated state machine as an object: it applies committed entries to the Broker and the
    session table, publishes what it reached, builds snapshots and is replaced by installed ones. */
module Raft {
  import opened Order
  import opened BrokerState
  import opened BrokerMachine
  import opened Coherence
  import opened Soundness
  import opened Checkpoints
  import opened Rebuilding
  import opened Replicas
  import opened Sessions
  import opened Snapshots
  import opened LogStore
  import opened Nodes
  import opened Progress
  import opened Broker

  datatype Payload = Blank | Membership(config: nat) | Normal(p: Proposal)

  datatype Entry = Entry(id: LogId, payload: Payload)

  /** What is handed to the observers: the state, and the index it was reached at. */
  datatype Notice = Notice(state: State, applied: Option<nat>)

  /** The replica together with how far it has applied the log and all that it has published. */
  datatype Replica = Replica(
    node: Node, lastApplied: Option<LogId>, membership: Option<(LogId, nat)>, published: seq<Notice>)

  datatype AppliedEntries = AppliedEntries(replica: Replica, responses: Result<seq<Response>, Fatal>)

  /** Observers are shown the index alone. */
  function IndexOf(id: Option<LogId>): Option<nat> {
    if id.Some? then Some(id.value.index) else None
  }

  /** The entry's log id is recorded and the state published, whatever the entry was. */
  function Reached(r: Replica, id: LogId): Replica {
    r.(lastApplied := Some(id), published := r.published + [Notice(r.node.broker.state, Some(id.index))])
  }

  function ApplyEntry(r: Replica, e: Entry): Result<(Replica, Response), Fatal> {
    match e.payload
    case Blank => Ok((Reached(r, e.id), RaftControl))
    case Membership(config) => Ok((Reached(r.(membership := Some((e.id, config))), e.id), RaftControl))
    case Normal(p) =>
      match Deliver(r.node, p)
      case Err(error) => Err(error)
      case Ok(d) => Ok((Reached(r.(node := d.n), e.id), d.response))
  }

  /** Entries apply in order; one that cannot be applied stops the batch where it is. */
  function ApplyEntries(r: Replica, entries: seq<Entry>, done: seq<Response>): AppliedEntries
    decreases |entries|
  {
    if entries == [] then AppliedEntries(r, Ok(done))
    else
      match ApplyEntry(r, entries[0])
      case Err(error) => AppliedEntries(r, Err(error))
      case Ok((r', response)) => ApplyEntries(r', entries[1..], done + [response])
  }

  function ProposalsIn(entries: seq<Entry>): seq<Proposal> {
    if entries == [] then []
    else (if entries[0].payload.Normal? then [entries[0].payload.p] else []) + ProposalsIn(entries[1..])
  }

  /** One response per entry: the proposals' own, in order, and a control response for the others. */
  function Interleaved(entries: seq<Entry>, responses: seq<Response>): seq<Response> {
    if entries == [] then []
    else if !entries[0].payload.Normal? then [RaftControl] + Interleaved(entries[1..], responses)
    else if responses == [] then []
    else [responses[0]] + Interleaved(entries[1..], responses[1..])
  }

  /** Applying a batch is running its proposals: control entries change neither Broker nor sessions, every
      entry gets the response of its own proposal, and the batch fails exactly if one does not decode. */
  lemma {:induction false} BatchIsRun(r: Replica, entries: seq<Entry>, done: seq<Response>)
    ensures ApplyEntries(r, entries, done).replica.node == NodeAfter(r.node, ProposalsIn(entries))
    ensures ApplyEntries(r, entries, done).responses ==
              if AllDecode(ProposalsIn(entries)) then
                Ok(done + Interleaved(entries, Responses(r.node, ProposalsIn(entries))))
              else Err(InvalidData)
    decreases |entries|
  {
    hide Deliver, Decodes, AllDecode;
    if entries == [] {
      NoneToDecode();
      assert done + [] == done;
    } else {
      var rest := entries[1..];
      FirstDecodes(entries);
      if entries[0].payload.Normal? {
        var p := entries[0].payload.p;
        assert ProposalsIn(entries) == [p] + ProposalsIn(rest);
        DecodesDelivers(r.node, p);
        DeliverError(r.node, p);
      } else {
        assert ProposalsIn(entries) == ProposalsIn(rest);
      }
      var applied := ApplyEntry(r, entries[0]);
      if applied.Ok? {
        var (r', response) := applied.value;
        BatchIsRun(r', rest, done + [response]);
        var more := Interleaved(rest, Responses(r'.node, ProposalsIn(rest)));
        assert done + [response] + more == done + ([response] + more);
      }
    }
  }

  lemma DeliverError(n: Node, p: Proposal)
    ensures Deliver(n, p).Err? ==> Deliver(n, p) == Err(InvalidData)
  {}

  lemma NoneToDecode()
    ensures AllDecode([])
  {}

  lemma FirstDecodes(entries: seq<Entry>)
    requires entries != []
    ensures AllDecode(ProposalsIn(entries)) <==>
              (entries[0].payload.Normal? ==> Decodes(entries[0].payload.p)) && AllDecode(ProposalsIn(entries[1..]))
  {
    hide Decodes;
    var rest := ProposalsIn(entries[1..]);
    if entries[0].payload.Normal? {
      assert ProposalsIn(entries) == [entries[0].payload.p] + rest;
      assert forall q | q in rest :: q in ProposalsIn(entries);
      assert entries[0].payload.p in ProposalsIn(entries);
    } else {
      assert ProposalsIn(entries) == rest;
    }
  }

  // ---- What is published ----

  /** Terms and revisions never fall from one notice to the next. */
  predicate Rising(notices: seq<Notice>) {
    forall i | 0 <= i < |notices| - 1 :: NoOlder(notices[i].state, notices[i + 1].state)
  }

  /** The last notice is the present state at the present index. */
  predicate Current(r: Replica) {
    r.published != [] && r.published[|r.published| - 1] == Notice(r.node.broker.state, IndexOf(r.lastApplied))
  }

  /** After every batch, also one that stopped half way, the observers have the present state and index,
      one more notice for every applied entry, and never saw a term or revision fall. */
  lemma {:induction false} BatchPublishes(r: Replica, entries: seq<Entry>, done: seq<Response>)
    requires Current(r) && Rising(r.published)
    ensures
      var a := ApplyEntries(r, entries, done);
      && Current(a.replica) && Rising(a.replica.published) && r.published <= a.replica.published
      && (a.responses.Ok? ==> |a.replica.published| == |r.published| + |entries|)
    decreases |entries|
  {
    hide Deliver, Rising, NoOlder;
    if entries != [] {
      var applied := ApplyEntry(r, entries[0]);
      if applied.Ok? {
        var (r', response) := applied.value;
        assert NoOlder(r.node.broker.state, r'.node.broker.state) by {
          if entries[0].payload.Normal? {
            DeliverNoOlder(r.node, entries[0].payload.p);
          } else {
            SameNoOlder(r.node.broker.state);
          }
        }
        RisesBy(r.published, Notice(r'.node.broker.state, Some(entries[0].id.index)));
        BatchPublishes(r', entries[1..], done + [response]);
      }
    }
  }

  /** A batch leaves the replica at its last entry, with the last membership in it, and the notice of every
      entry shows its index and the state that the proposals up to it lead to. */
  lemma {:induction false} BatchRecords(r: Replica, entries: seq<Entry>, done: seq<Response>, j: nat)
    requires ApplyEntries(r, entries, done).responses.Ok? && j < |entries|
    ensures
      var r' := ApplyEntries(r, entries, done).replica;
      && r'.lastApplied == Some(entries[|entries| - 1].id)
      && (entries[j].payload.Membership? && (forall k | j < k < |entries| :: !entries[k].payload.Membership?) ==>
            r'.membership == Some((entries[j].id, entries[j].payload.config)))
      && ((forall k | 0 <= k < |entries| :: !entries[k].payload.Membership?) ==> r'.membership == r.membership)
      && |r'.published| == |r.published| + |entries| && r.published <= r'.published
      && r'.published[|r.published| + j] ==
           Notice(NodeAfter(r.node, ProposalsIn(entries[..j + 1])).broker.state, Some(entries[j].id.index))
    decreases |entries|
  {
    hide Deliver;
    var rest, e := entries[1..], entries[0];
    var (r1, response) := ApplyEntry(r, e).value;
    FirstEntry(r, entries, j);
    if rest != [] {
      var i := if j > 0 then j - 1 else 0;
      BatchRecords(r1, rest, done + [response], i);
      assert forall k | 0 <= k < |rest| :: rest[k] == entries[k + 1];
      if entries[j].payload.Membership? && (forall k | j < k < |entries| :: !entries[k].payload.Membership?) {
        assert forall k | i < k < |rest| :: !rest[k].payload.Membership?;
      }
    }
  }

  lemma FirstEntry(r: Replica, entries: seq<Entry>, j: nat)
    requires j < |entries| && ApplyEntry(r, entries[0]).Ok?
    ensures
      var r1 := ApplyEntry(r, entries[0]).value.0;
      && NodeAfter(r.node, ProposalsIn(entries[..j + 1])) == NodeAfter(r1.node, ProposalsIn(entries[1..][..j]))
      && (j == 0 ==> NodeAfter(r1.node, ProposalsIn(entries[1..][..j])) == r1.node)
  {
    hide Deliver;
    var first, more := entries[0], entries[1..][..j];
    assert entries[..j + 1] == [first] + more;
    assert ProposalsIn([first] + more) ==
           (if first.payload.Normal? then [first.payload.p] else []) + ProposalsIn(more) by {
      assert ([first] + more)[1..] == more;
    }
    if first.payload.Normal? {
      assert ([first.payload.p] + ProposalsIn(more))[1..] == ProposalsIn(more);
    } else {
      assert [] + ProposalsIn(more) == ProposalsIn(more);
    }
  }

  lemma RisesBy(notices: seq<Notice>, n: Notice)
    requires notices != [] && Rising(notices) && NoOlder(notices[|notices| - 1].state, n.state)
    ensures Rising(notices + [n])
  {
    hide NoOlder;
  }

  lemma SameNoOlder(s: State)
    ensures NoOlder(s, s)
  {}

  lemma DeliverNoOlder(n: Node, p: Proposal)
    requires Deliver(n, p).Ok?
    ensures NoOlder(n.broker.state, Deliver(n, p).value.n.broker.state)
  {
    hide Deliver, Executed, Exec, NoOlder;
    DeliverIs(n, p);
    if Executed(n, p).Some? {
      ExecNoOlder(n.broker, Executed(n, p).value);
    } else {
      SameNoOlder(n.broker.state);
    }
  }

  // ---- Snapshots and restarts ----

  /** What the snapshot builder takes along when it is asked for. */
  datatype Builder = Builder(
    checkpoint: Checkpoint, sessions: map<nat, Record>, last: Option<LogId>, membership: Option<(LogId, nat)>)

  /** A snapshot is named after the log id and the revision it was taken at. */
  datatype SnapshotMeta = SnapshotMeta(
    last: Option<LogId>, membership: Option<(LogId, nat)>, name: (Option<LogId>, nat))

  datatype Snapshot = Snapshot(meta: SnapshotMeta, data: seq<byte>)

  /** What is on disk: metadata and data under two keys, written together. */
  datatype Pair = Pair(meta: Option<SnapshotMeta>, data: Option<seq<byte>>)

  function Both(snapshot: Snapshot): Pair {
    Pair(Some(snapshot.meta), Some(snapshot.data))
  }

  function BuilderOf(r: Replica): Builder {
    Builder(Export(r.node.broker.state), r.node.sessions, r.lastApplied, r.membership)
  }

  function Built(codec: Codec, b: Builder): Result<Snapshot, SnapshotError> {
    match EncodeSnapshot(codec, b.checkpoint, b.sessions)
    case Err(e) => Err(e)
    case Ok(data) => Ok(Snapshot(SnapshotMeta(b.last, b.membership, (b.last, b.checkpoint.revision)), data))
  }

  /** The replica that a snapshot describes; `published` is what was published before. */
  function Loaded(codec: Codec, snapshot: Snapshot, published: seq<Notice>): Result<Replica, SnapshotError> {
    match Nodes.InstallSnapshot(codec, snapshot.data)
    case Err(e) => Err(e)
    case Ok(n) =>
      var meta := snapshot.meta;
      Ok(Replica(n, meta.last, meta.membership, published + [Notice(n.broker.state, IndexOf(meta.last))]))
  }

  /** The replica that a restart starts with. */
  function Started(codec: Codec, stored: Pair): Result<Replica, SnapshotError> {
    if stored.meta.None? && stored.data.None? then Ok(Replica(EmptyNode, None, None, [Notice(EmptyState, None)]))
    else if stored.meta.None? || stored.data.None? then Err(IncompletePair)
    else Loaded(codec, Snapshot(stored.meta.value, stored.data.value), [])
  }

  /** A snapshot brings back the replica that it was built from: same authoritative state, sessions,
      position in the log and membership, indexes rebuilt. */
  lemma BuiltLoads(codec: Codec, r: Replica, published: seq<Notice>)
    requires Faithful(codec) && Portable(r.node)
    requires Built(codec, BuilderOf(r)).Ok? && |Built(codec, BuilderOf(r)).value.data| <= U64_MAX
    ensures Loaded(codec, Built(codec, BuilderOf(r)).value, published) ==
              Ok(Replica(Node(Reinstalled(r.node.broker), r.node.sessions), r.lastApplied, r.membership,
                         published + [Notice(r.node.broker.state, IndexOf(r.lastApplied))]))
  {
    hide Faithful, Sound, Storable, FromCheckpoint, Export, DecodeSnapshot, EncodeSnapshot, Coherent, Clean, Rebuild,
      Restorable;
    SnapshotInstalls(codec, r.node);
    RoundTrip(r.node.broker.state);
  }

  class RaftStateMachine {
    var broker: BrokerStateMachine
    var sessions: map<nat, Record>
    var lastApplied: Option<LogId>
    var membership: Option<(LogId, nat)>
    // What the observers were given.
    var published: seq<Notice>
    // What is on disk.
    var stored: Pair

    ghost function Abs(): Node
      reads this, broker
    {
      Node(broker.Abs(), sessions)
    }

    ghost function AbsReplica(): Replica
      reads this, broker
    {
      Replica(Abs(), lastApplied, membership, published)
    }

    constructor (broker: BrokerStateMachine, sessions: map<nat, Record>, last: Option<LogId>,
                 config: Option<(LogId, nat)>, stored: Pair)
      ensures this.broker == broker && this.stored == stored
      ensures AbsReplica() == Replica(Node(broker.Abs(), sessions), last, config, [Notice(broker.state, IndexOf(last))])
    {
      this.broker, this.sessions, this.stored := broker, sessions, stored;
      lastApplied, membership, published := last, config, [Notice(broker.state, IndexOf(last))];
    }

    /** Start from what is on disk: the persisted snapshot if there is one, else an empty Broker. */
    static method Load(codec: Codec, stored: Pair) returns (r: Result<RaftStateMachine, SnapshotError>)
      ensures r.Ok? ==>
                fresh(r.value) && fresh(r.value.broker) && r.value.stored == stored && Current(r.value.AbsReplica())
      ensures match Started(codec, stored)
              case Err(e) => r == Err(e)
              case Ok(replica) => r.Ok? && r.value.AbsReplica() == replica
    {
      hide DecodeSnapshot, FromCheckpoint;
      if stored.meta.None? && stored.data.None? {
        var empty := new BrokerStateMachine();
        var machine := new RaftStateMachine(empty, map[], None, None, stored);
        return Ok(machine);
      }
      if stored.meta.None? || stored.data.None? {
        return Err(IncompletePair);
      }
      var meta, data := stored.meta.value, stored.data.value;
      var decoded := DecodeSnapshot(codec, data);
      if decoded.Err? {
        return Err(decoded.error);
      }
      var restored := BrokerStateMachine.Restore(decoded.value.0);
      if restored.Err? {
        return Err(BadCheckpoint(restored.error));
      }
      var machine := new RaftStateMachine(restored.value, decoded.value.1, meta.last, meta.membership, stored);
      r := Ok(machine);
    }

    method ApplyReplicatedCommand(c: Command) returns (r: Response)
      modifies broker
      ensures Delivered(Abs(), r) == ApplyCommand(old(Abs()), c)
    {
      hide Exec;
      var applied := broker.Execute(c);
      r := match applied { case Ok(reply) => Success(reply) case Err(e) => ApplicationError(Domain(e), Committed) };
    }

    /** The checks that come before execution, in order. */
    method Screen(id: Identity, c: Command) returns (v: Verdict)
      ensures v == Judge(sessions, id, c)
    {
      hide SameRequest;
      if id.session in sessions {
        var record := sessions[id.session];
        if id.epoch != record.epoch || id.instance != record.instance {
          return Refuse(StaleFence);
        }
        if record.last.Some? {
          var last := record.last.value;
          if id.sequence < last.sequence {
            return Refuse(StaleFence);
          }
          if id.sequence == last.sequence {
            if SameRequest(c, last.command) {
              return Repeat(last.response);
            }
            return Refuse(Conflict);
          }
        } else if id.sequence != 1 {
          return Refuse(StaleFence);
        }
      } else {
        if id.epoch != 1 || id.instance.Some? {
          return Refuse(StaleFence);
        }
        if |sessions| >= MAX_SESSIONS {
          return Refuse(SessionCapacity);
        }
      }
      v := Execute;
    }

    method ApplyIdentified(id: Identity, c: Command) returns (r: Response)
      modifies this`sessions, broker
      ensures Delivered(Abs(), r) == Sessions.ApplyIdentified(old(Abs()), id, c)
    {
      hide ApplyCommand, Judge;
      var verdict := Screen(id, c);
      match verdict {
        case Refuse(code) => r := ApplicationError(Fenced(code), Refused);
        case Repeat(response) => r := response;
        case Execute =>
          r := ApplyReplicatedCommand(c);
          sessions := sessions[id.session := Record(id.epoch, id.instance, Some(Last(id.sequence, c, r)))];
      }
    }

    method AcquireOwner(session: nat, expected: nat, instance: nat) returns (r: Response)
      modifies this`sessions
      ensures Delivered(Abs(), r) == Sessions.AcquireOwner(old(Abs()), session, expected, instance)
    {
      if session !in sessions {
        if expected != 1 {
          return ApplicationError(Fenced(StaleFence), Refused);
        }
        if |sessions| >= MAX_SESSIONS {
          return ApplicationError(Fenced(SessionCapacity), Refused);
        }
        sessions := sessions[session := Record(1, Some(instance), None)];
        return OwnerAcquired(1);
      }
      var record := sessions[session];
      if record.instance == Some(instance) &&
         (record.epoch == expected || (expected < U64_MAX && record.epoch == expected + 1)) {
        return OwnerAcquired(record.epoch);
      }
      if record.epoch != expected {
        return ApplicationError(Fenced(StaleFence), Refused);
      }
      if record.epoch >= U64_MAX {
        return ApplicationError(Fenced(SessionCapacity), Refused);
      }
      sessions := sessions[session := Record(record.epoch + 1, Some(instance), None)];
      r := OwnerAcquired(record.epoch + 1);
    }

    method ApplyProposal(p: Proposal) returns (r: Result<Response, Fatal>)
      modifies this`sessions, broker
      ensures match Deliver(old(Abs()), p)
              case Err(e) => r == Err(e) && Abs() == old(Abs())
              case Ok(d) => r == Ok(d.response) && Abs() == d.n
    {
      hide Sessions.ApplyIdentified, Sessions.AcquireOwner, ApplyCommand;
      if !Decodes(p) {
        return Err(InvalidData);
      }
      var response;
      match p.request {
        case Acquire(session, expected, instance) => response := AcquireOwner(session, expected, instance);
        case Run(c) =>
          if p.identity.Some? {
            response := ApplyIdentified(p.identity.value, c);
          } else {
            response := ApplyReplicatedCommand(c);
          }
      }
      r := Ok(response);
    }

    /** Apply a batch of committed entries. */
    method Apply(entries: seq<Entry>) returns (r: Result<seq<Response>, Fatal>)
      modifies this, broker
      ensures broker == old(broker) && stored == old(stored)
      ensures AppliedEntries(AbsReplica(), r) == ApplyEntries(old(AbsReplica()), entries, [])
    {
      hide Deliver;
      var responses, i := [], 0;
      while i < |entries|
        invariant 0 <= i <= |entries| && broker == old(broker) && stored == old(stored)
        invariant ApplyEntries(AbsReplica(), entries[i..], responses) == ApplyEntries(old(AbsReplica()), entries, [])
      {
        assert entries[i..][1..] == entries[i + 1..];
        var entry := entries[i];
        var response;
        match entry.payload {
          case Blank => response := RaftControl;
          case Membership(config) =>
            membership := Some((entry.id, config));
            response := RaftControl;
          case Normal(p) =>
            var applied := ApplyProposal(p);
            if applied.Err? {
              return Err(applied.error);
            }
            response := applied.value;
        }
        lastApplied := Some(entry.id);
        published := published + [Notice(broker.state, Some(entry.id.index))];
        responses := responses + [response];
        i := i + 1;
      }
      r := Ok(responses);
    }

    method GetSnapshotBuilder() returns (b: Builder)
      ensures b == BuilderOf(AbsReplica())
    {
      b := Builder(Export(broker.state), sessions, lastApplied, membership);
    }

    /** Build and persist the snapshot of the replica that the builder was taken from.  It is on disk
        before it is handed out; after a failed write the disk holds what it held or the new snapshot, and
        from that a restart comes back as the replica that the builder was taken from. */
    method BuildSnapshot(b: Builder, codec: Codec, io: Io) returns (r: Result<Snapshot, SnapshotError>)
      modifies this`stored
      ensures r.Ok? <==> io.Done? && Built(codec, b).Ok?
      ensures r.Ok? ==> r == Built(codec, b)
      ensures stored == if Built(codec, b).Ok? && !io.FailedBefore? then Both(Built(codec, b).value) else old(stored)
      ensures forall a: Replica {:trigger BuilderOf(a)} ::
                && Built(codec, b).Ok? && !io.FailedBefore? && b == BuilderOf(a)
                && Faithful(codec) && Portable(a.node) && |Built(codec, b).value.data| <= U64_MAX ==>
                  Started(codec, stored) ==
                    Ok(Replica(Node(Reinstalled(a.node.broker), a.node.sessions), a.lastApplied, a.membership,
                               [Notice(a.node.broker.state, IndexOf(a.lastApplied))]))
    {
      hide EncodeSnapshot, Loaded, BuilderOf, Faithful, Portable;
      var encoded := EncodeSnapshot(codec, b.checkpoint, b.sessions);
      if encoded.Err? {
        return Err(encoded.error);
      }
      var snapshot := Snapshot(SnapshotMeta(b.last, b.membership, (b.last, b.checkpoint.revision)), encoded.value);
      if io.FailedBefore? {
        return Err(NotPersisted);
      }
      stored := Both(snapshot);
      forall a: Replica {:trigger BuilderOf(a)} |
        b == BuilderOf(a) && Faithful(codec) && Portable(a.node) && |snapshot.data| <= U64_MAX
        ensures Started(codec, stored) ==
                  Ok(Replica(Node(Reinstalled(a.node.broker), a.node.sessions), a.lastApplied, a.membership,
                             [Notice(a.node.broker.state, IndexOf(a.lastApplied))]))
      {
        BuiltLoads(codec, a, []);
        assert [] + [Notice(a.node.broker.state, IndexOf(a.lastApplied))] ==
               [Notice(a.node.broker.state, IndexOf(a.lastApplied))];
      }
      if io.FailedAfter? {
        return Err(NotPersisted);
      }
      r := Ok(snapshot);
    }

    /** Replace Broker and sessions by a received snapshot, once it has been validated and persisted.  A
        write that fails after it took effect leaves memory alone and the new snapshot on disk. */
    method InstallSnapshot(codec: Codec, snapshot: Snapshot, io: Io) returns (installed: bool)
      modifies this
      ensures installed <==> io.Done? && Loaded(codec, snapshot, old(published)).Ok?
      ensures installed ==> fresh(broker) && Loaded(codec, snapshot, old(published)) == Ok(AbsReplica())
      ensures !installed ==> broker == old(broker) && AbsReplica() == old(AbsReplica())
      ensures stored ==
                if Loaded(codec, snapshot, old(published)).Ok? && !io.FailedBefore? then Both(snapshot) else old(stored)
    {
      hide DecodeSnapshot, FromCheckpoint;
      var decoded := DecodeSnapshot(codec, snapshot.data);
      if decoded.Err? {
        return false;
      }
      var restored := BrokerStateMachine.Restore(decoded.value.0);
      if restored.Err? || io.FailedBefore? {
        return false;
      }
      stored := Both(snapshot);
      if io.FailedAfter? {
        return false;
      }
      broker, sessions := restored.value, decoded.value.1;
      lastApplied, membership := snapshot.meta.last, snapshot.meta.membership;
      published := published + [Notice(broker.state, IndexOf(lastApplied))];
      installed := true;
    }
  }
}
