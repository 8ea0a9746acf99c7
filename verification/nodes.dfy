/** Replicas with their session tables: snapshots taken and installed anywhere in the committed log. */
module Nodes {
  import opened Order
  import opened Tasks
  import opened BrokerState
  import opened BrokerMachine
  import opened Coherence
  import opened ClaimRefinement
  import opened Refinement
  import opened Soundness
  import opened Checkpoints
  import opened Rebuilding
  import opened Replicas
  import opened Integrity
  import opened Sessions
  import opened Snapshots

  // ---- Every reachable session table survives a snapshot ----

  lemma ClaimReplyShaped(m: Machine, c: Command)
    requires c.ClaimTask?
    ensures ClaimRun(m, c).reply.Ok? ==> ClaimShaped(ClaimRun(m, c).reply.value)
  {
    hide RecoverExpired, PopReady, Admit;
  }

  lemma SweepReplies(m: Machine, c: Command)
    requires c.LeaveGroup? || c.ReapStaleMembers? || c.PruneCompleted?
    ensures Exec(m, c).reply.Ok? ==> !Exec(m, c).reply.value.ClaimReply?
  {
    hide RequeueMember, ReapGroups, Destroy, Probe, Underflows, Preflight, FirstN, StaleKeys, CanAdvance;
  }

  lemma TaskReplies(m: Machine, c: Command)
    requires c.PublishTask? || c.RenewLease? || c.CompleteTask?
    ensures Exec(m, c).reply.Ok? ==> !Exec(m, c).reply.value.ClaimReply?
  {
    hide Admit, RequireActiveLease;
  }

  lemma OtherReplies(m: Machine, c: Command)
    requires c.EnsureNamespace? || c.EnsureGroup? || c.JoinGroup? || c.Heartbeat? || c.AdvanceTerm?
    ensures Exec(m, c).reply.Ok? ==> !Exec(m, c).reply.value.ClaimReply?
  {}

  /** Whatever the Broker answers, a claim reply is complete or empty. */
  lemma RepliesShaped(m: Machine, c: Command)
    ensures Exec(m, c).reply.Ok? ==> ClaimShaped(Exec(m, c).reply.value)
  {
    if c.ClaimTask? {
      hide ClaimRun;
      ClaimReplyShaped(m.(changes := NoChanges), c);
    } else if c.LeaveGroup? || c.ReapStaleMembers? || c.PruneCompleted? {
      hide Exec;
      SweepReplies(m, c);
    } else if c.PublishTask? || c.RenewLease? || c.CompleteTask? {
      hide Exec;
      TaskReplies(m, c);
    } else {
      hide Exec;
      OtherReplies(m, c);
    }
    hide Exec;
  }

  lemma RecordKept(n: Node, p: Proposal, k: nat)
    requires Storable(n.sessions) && Deliver(n, p).Ok? && k in Deliver(n, p).value.n.sessions
    ensures RecordStorable(Deliver(n, p).value.n.sessions[k])
  {
    hide Exec, Judge;
    if p.request.Run? {
      RepliesShaped(n.broker, p.request.c);
    }
  }

  lemma DeliverStorable(n: Node, p: Proposal)
    requires Storable(n.sessions) && Deliver(n, p).Ok?
    ensures Storable(Deliver(n, p).value.n.sessions)
  {
    TableStaysBounded(n, p);
    hide Deliver, RecordStorable;
    forall k | k in Deliver(n, p).value.n.sessions ensures RecordStorable(Deliver(n, p).value.n.sessions[k]) {
      RecordKept(n, p, k);
    }
  }

  /** So every table that any run of proposals leads to survives a snapshot. */
  lemma {:induction false} EveryTableStorable(n: Node, log: seq<Proposal>)
    requires Storable(n.sessions)
    ensures Storable(NodeAfter(n, log).sessions)
    decreases |log|
  {
    hide Deliver, Storable;
    if log != [] && Deliver(n, log[0]).Ok? {
      DeliverStorable(n, log[0]);
      EveryTableStorable(Deliver(n, log[0]).value.n, log[1..]);
    }
  }

  // ---- Snapshots of a replica ----

  function TakeSnapshot(codec: Codec, n: Node): Result<seq<byte>, SnapshotError> {
    EncodeSnapshot(codec, Export(n.broker.state), n.sessions)
  }

  function InstallSnapshot(codec: Codec, data: seq<byte>): Result<Node, SnapshotError> {
    match DecodeSnapshot(codec, data)
    case Err(e) => Err(e)
    case Ok((cp, sessions)) =>
      match FromCheckpoint(cp) { case Err(e) => Err(BadCheckpoint(e)) case Ok(m) => Ok(Node(m, sessions)) }
  }

  /** State and sessions that a snapshot can carry. */
  ghost predicate Portable(n: Node) {
    Restorable(n.broker.state) && Storable(n.sessions)
  }

  /** Installing the snapshot of a replica gives its authoritative state and session table back, with
      freshly rebuilt indexes. */
  lemma SnapshotInstalls(codec: Codec, n: Node)
    requires Faithful(codec) && Portable(n)
    requires TakeSnapshot(codec, n).Ok? && |TakeSnapshot(codec, n).value| <= U64_MAX
    ensures InstallSnapshot(codec, TakeSnapshot(codec, n).value) == Ok(Node(Reinstalled(n.broker), n.sessions))
  {
    RoundTrip(n.broker.state);
    hide FromCheckpoint, Export, DecodeSnapshot, EncodeSnapshot, Storable, Faithful, AllOwned, Restorable;
    SnapshotRoundTrip(codec, Export(n.broker.state), n.sessions);
  }

  // ---- Convergence with sessions ----

  datatype NodeEvent = Commit(p: Proposal) | Install(codec: Codec)

  /** The command that the Broker executes for the proposal, if any. */
  function Executed(n: Node, p: Proposal): Option<Command> {
    if Decodes(p) && p.request.Run? && (p.identity.None? || Judge(n.sessions, p.identity.value, p.request.c).Execute?)
    then Some(p.request.c) else None
  }

  function Proposals(events: seq<NodeEvent>): seq<Proposal> {
    if events == [] then []
    else if events[0].Commit? then [events[0].p] + Proposals(events[1..])
    else Proposals(events[1..])
  }

  /** The run is defined: every proposal decodes and no executed command meets a hazard. */
  ghost predicate SafeNode(n: Node, log: seq<Proposal>)
    decreases |log|
  {
    log == [] ||
    (&& Deliver(n, log[0]).Ok?
     && (Executed(n, log[0]).Some? ==> !Hazard(n.broker, Executed(n, log[0]).value))
     && SafeNode(Deliver(n, log[0]).value.n, log[1..]))
  }

  function Responses(n: Node, log: seq<Proposal>): seq<Response>
    decreases |log|
  {
    if log == [] then []
    else match Deliver(n, log[0]) { case Err(_) => [] case Ok(d) => [d.response] + Responses(d.n, log[1..]) }
  }

  /** A replica is replaced by what it installs; a snapshot that is too long to write is not taken. */
  function NodeInstalled(codec: Codec, n: Node): Node {
    match TakeSnapshot(codec, n)
    case Err(_) => n
    case Ok(data) => match InstallSnapshot(codec, data) { case Err(_) => n case Ok(n') => n' }
  }

  function NodeReplica(n: Node, events: seq<NodeEvent>): Node
    decreases |events|
  {
    if events == [] then n
    else match events[0] {
      case Commit(p) => match Deliver(n, p) { case Err(_) => n case Ok(d) => NodeReplica(d.n, events[1..]) }
      case Install(codec) => NodeReplica(NodeInstalled(codec, n), events[1..])
    }
  }

  function NodeReplies(n: Node, events: seq<NodeEvent>): seq<Response>
    decreases |events|
  {
    if events == [] then []
    else match events[0] {
      case Commit(p) =>
        match Deliver(n, p) { case Err(_) => [] case Ok(d) => [d.response] + NodeReplies(d.n, events[1..]) }
      case Install(codec) => NodeReplies(NodeInstalled(codec, n), events[1..])
    }
  }

  /** Same sessions, and a Broker that tracks the other. */
  ghost predicate NodeTracks(b: Node, a: Node) {
    b.sessions == a.sessions && Tracks(b.broker, a.broker)
  }

  ghost predicate Good(n: Node) {
    Sound(n.broker.state) && Storable(n.sessions)
  }

  lemma DeliverIs(n: Node, p: Proposal)
    requires Deliver(n, p).Ok?
    ensures
      var d := Deliver(n, p).value;
      match Executed(n, p)
      case Some(c) => d.n.broker == Exec(n.broker, c).m
      case None => d.n.broker == n.broker
  {
    hide Exec, Judge;
  }

  /** The table and the response depend on the Broker only through its reply. */
  lemma SameReplySameSession(a: Node, b: Node, p: Proposal)
    requires a.sessions == b.sessions && Deliver(a, p).Ok? && Deliver(b, p).Ok?
    requires Executed(a, p).Some? ==>
               Exec(a.broker, Executed(a, p).value).reply == Exec(b.broker, Executed(a, p).value).reply
    ensures Executed(a, p) == Executed(b, p)
    ensures Deliver(a, p).value.response == Deliver(b, p).value.response
    ensures Deliver(a, p).value.n.sessions == Deliver(b, p).value.n.sessions
  {
    hide Exec, Judge;
  }

  lemma NodeTracksStep(b: Node, a: Node, p: Proposal)
    requires NodeTracks(b, a) && Good(a) && Deliver(a, p).Ok?
    requires Executed(a, p).Some? ==> !Hazard(a.broker, Executed(a, p).value)
    ensures Deliver(b, p).Ok? && Deliver(b, p).value.response == Deliver(a, p).value.response
    ensures NodeTracks(Deliver(b, p).value.n, Deliver(a, p).value.n) && Good(Deliver(a, p).value.n)
  {
    assert Deliver(b, p).Ok?;
    hide Deliver, Exec, Hazard, Tracks, Sound, Storable, Executed, Step;
    DeliverIs(a, p);
    DeliverIs(b, p);
    DeliverStorable(a, p);
    if Executed(a, p).Some? {
      var c := Executed(a, p).value;
      TracksStep(b.broker, a.broker, c);
      TracksCoherent(b.broker, a.broker);
      SafeStep(a.broker, c);
      StepSound(a.broker.state, c);
    }
    SameReplySameSession(a, b, p);
  }

  lemma TracksCoherent(b: Machine, a: Machine)
    requires Tracks(b, a)
    ensures Coherent(a) && Coherent(b) && a.state == b.state
  {}

  ghost predicate CodecsGood(events: seq<NodeEvent>) {
    forall e | e in events && e.Install? :: Faithful(e.codec)
  }

  /** The container fits into 64-bit lengths, as it must for the decoder to accept it. */
  predicate Fits(codec: Codec, n: Node) {
    TakeSnapshot(codec, n).Ok? ==> |TakeSnapshot(codec, n).value| <= U64_MAX
  }

  ghost predicate AllFit(n: Node, events: seq<NodeEvent>)
    decreases |events|
  {
    events == [] ||
    match events[0] {
      case Commit(p) => Deliver(n, p).Ok? ==> AllFit(Deliver(n, p).value.n, events[1..])
      case Install(codec) => Fits(codec, n) && AllFit(NodeInstalled(codec, n), events[1..])
    }
  }

  lemma InstalledTracks(codec: Codec, b: Node, a: Node)
    requires Faithful(codec) && NodeTracks(b, a) && Good(a) && Fits(codec, b)
    ensures NodeTracks(NodeInstalled(codec, b), a)
  {
    TracksCoherent(b.broker, a.broker);
    hide Faithful, Tracks, Sound, Storable, TakeSnapshot, InstallSnapshot;
    if TakeSnapshot(codec, b).Ok? {
      SoundRestorable(b.broker.state);
      SnapshotInstalls(codec, b);
      ReinstalledTracks(b.broker, a.broker);
    }
  }

  /** Replica convergence, sessions included: a replica that installs snapshots at any points of the
      committed log gives the same response to every proposal as one that applied the whole log, and
      ends with the same authoritative state and the same session table. */
  lemma {:induction false} NodesConverge(a: Node, b: Node, events: seq<NodeEvent>)
    requires NodeTracks(b, a) && Good(a) && SafeNode(a, Proposals(events)) && CodecsGood(events) && AllFit(b, events)
    ensures NodeTracks(NodeReplica(b, events), NodeAfter(a, Proposals(events)))
    ensures NodeReplies(b, events) == Responses(a, Proposals(events))
    decreases |events|
  {
    hide Deliver, Executed, NodeTracks, Good, Faithful, NodeInstalled, Hazard;
    if events != [] {
      var rest := events[1..];
      assert events[0] in events && forall e | e in rest :: e in events;
      match events[0]
      case Commit(p) =>
        assert Proposals(events) == [p] + Proposals(rest);
        NodeTracksStep(b, a, p);
        NodesConverge(Deliver(a, p).value.n, Deliver(b, p).value.n, rest);
      case Install(codec) =>
        InstalledTracks(codec, b, a);
        NodesConverge(a, NodeInstalled(codec, b), rest);
    }
  }

  // ---- Every replica's snapshot loads ----

  ghost predicate NodeKept(n: Node) {
    Kept(n.broker) && Storable(n.sessions)
  }

  lemma KeptPortable(n: Node)
    requires NodeKept(n)
    ensures Portable(n)
  {
    hide Kept;
    KeptRestorable(n.broker);
  }

  lemma CoherentCovered(m: Machine)
    requires Coherent(m)
    ensures Covered(m, {})
  {
    Parts(m);
    hide Coherent;
  }

  lemma ReinstalledKept(m: Machine)
    requires Kept(m)
    ensures Kept(Reinstalled(m))
  {
    KeptRestorable(m);
    hide FromCheckpoint, Export, Coherent, Clean, Rebuild, Restorable, Covered, TasksSound, GroupsSound;
    RoundTrip(m.state);
    CoherentCovered(Reinstalled(m));
  }

  lemma DeliverKept(n: Node, p: Proposal)
    requires NodeKept(n) && Deliver(n, p).Ok?
    ensures NodeKept(Deliver(n, p).value.n)
  {
    hide Kept, Storable, Deliver, Executed, Exec;
    DeliverIs(n, p);
    DeliverStorable(n, p);
    if Executed(n, p).Some? {
      ExecKept(n.broker, Executed(n, p).value);
    }
  }

  lemma InstalledKept(codec: Codec, n: Node)
    requires NodeKept(n) && Faithful(codec) && Fits(codec, n)
    ensures NodeKept(NodeInstalled(codec, n))
  {
    hide Kept, Storable, Faithful, TakeSnapshot, InstallSnapshot, Reinstalled, Portable;
    KeptPortable(n);
    ReinstalledKept(n.broker);
    if TakeSnapshot(codec, n).Ok? {
      SnapshotInstalls(codec, n);
    }
  }

  lemma {:induction false} ReplicaKept(n: Node, events: seq<NodeEvent>)
    requires NodeKept(n) && CodecsGood(events) && AllFit(n, events)
    ensures NodeKept(NodeReplica(n, events))
    decreases |events|
  {
    hide Deliver, NodeKept, Faithful, NodeInstalled;
    if events != [] {
      var rest := events[1..];
      assert events[0] in events && forall e | e in rest :: e in events;
      match events[0]
      case Commit(p) =>
        if Deliver(n, p).Ok? {
          DeliverKept(n, p);
          ReplicaKept(Deliver(n, p).value.n, rest);
        }
      case Install(codec) =>
        InstalledKept(codec, n);
        ReplicaKept(NodeInstalled(codec, n), rest);
    }
  }

  /** Whatever was committed and installed, hazards and overflows included, the snapshot of every replica
      installs and gives its authoritative state and session table back. */
  lemma EverySnapshotInstalls(events: seq<NodeEvent>, codec: Codec)
    requires CodecsGood(events) && AllFit(EmptyNode, events) && Faithful(codec)
    ensures
      var n := NodeReplica(EmptyNode, events);
      && Portable(n)
      && (TakeSnapshot(codec, n).Ok? && |TakeSnapshot(codec, n).value| <= U64_MAX ==>
            && InstallSnapshot(codec, TakeSnapshot(codec, n).value) == Ok(Node(Reinstalled(n.broker), n.sessions))
            && Reinstalled(n.broker).state == n.broker.state)
  {
    hide NodeReplica, NodeKept, Portable, TakeSnapshot, InstallSnapshot, Reinstalled, Faithful, AllFit, CodecsGood;
    EmptyNodeKept();
    ReplicaKept(EmptyNode, events);
    var n := NodeReplica(EmptyNode, events);
    KeptPortable(n);
    PortableReinstalls(n);
    if TakeSnapshot(codec, n).Ok? && |TakeSnapshot(codec, n).value| <= U64_MAX {
      SnapshotInstalls(codec, n);
    }
  }

  lemma PortableReinstalls(n: Node)
    requires Portable(n)
    ensures Reinstalled(n.broker).state == n.broker.state
  {
    hide FromCheckpoint, Export, Coherent, Clean, Rebuild, Restorable;
    RoundTrip(n.broker.state);
  }

  const EmptyNode := Node(EmptyMachine, map[])

  lemma EmptyNodeKept()
    ensures NodeKept(EmptyNode)
  {
    hide Kept;
    EmptyIsKept();
  }

  // ---- Which logs are safe, said of the log ----

  ghost predicate AllDecode(log: seq<Proposal>) {
    forall p | p in log :: Decodes(p)
  }

  /** No proposal publishes a Task id outside its home namespace. */
  ghost predicate AllKeepHome(log: seq<Proposal>, home: nat -> nat) {
    forall p | p in log && p.request.Run? :: KeepsHome(p.request.c, home)
  }

  /** No claim that the Broker executes overflows a counter or a deadline. */
  ghost predicate NoneOverflows(n: Node, log: seq<Proposal>)
    decreases |log|
  {
    log == [] ||
    (&& (Executed(n, log[0]).Some? ==> !ClaimOverflows(n.broker.state, Executed(n, log[0]).value))
     && (Deliver(n, log[0]).Ok? ==> NoneOverflows(Deliver(n, log[0]).value.n, log[1..])))
  }

  lemma HomedDelivery(n: Node, p: Proposal, home: nat -> nat)
    requires Coherent(n.broker) && Homed(n.broker, home) && Deliver(n, p).Ok?
    requires Executed(n, p).Some? ==> KeepsHome(Executed(n, p).value, home) && !Hazard(n.broker, Executed(n, p).value)
    ensures Coherent(Deliver(n, p).value.n.broker) && Homed(Deliver(n, p).value.n.broker, home)
  {
    hide Deliver, Executed, Hazard, Homed, Coherent, Exec, Step;
    DeliverIs(n, p);
    if Executed(n, p).Some? {
      SafeStep(n.broker, Executed(n, p).value);
      HomedStep(n.broker, Executed(n, p).value, home);
    }
  }

  lemma DecodesDelivers(n: Node, p: Proposal)
    ensures Deliver(n, p).Ok? <==> Decodes(p)
    ensures Executed(n, p).Some? ==> p.request.Run? && Executed(n, p).value == p.request.c
  {
    hide Judge, Exec;
  }

  /** A log of proposals that keeps each Task id to one namespace is safe exactly if every proposal
      decodes and no executed claim overflows. */
  lemma {:induction false} HomedNodeIsSafe(n: Node, log: seq<Proposal>, home: nat -> nat)
    requires Coherent(n.broker) && Homed(n.broker, home) && AllKeepHome(log, home)
    ensures SafeNode(n, log) <==> AllDecode(log) && NoneOverflows(n, log)
    decreases |log|
  {
    hide Deliver, Executed, Hazard, Homed, Coherent, ClaimOverflows, KeepsHome, Decodes;
    if log != [] {
      var p, rest := log[0], log[1..];
      assert p in log && forall q | q in rest :: q in log;
      assert forall q | q in log :: q == p || q in rest;
      DecodesDelivers(n, p);
      if Executed(n, p).Some? {
        OnlyOverflowIsHazard(n.broker, Executed(n, p).value, home);
      }
      if Decodes(p) && (Executed(n, p).Some? ==> !Hazard(n.broker, Executed(n, p).value)) {
        HomedDelivery(n, p, home);
        HomedNodeIsSafe(Deliver(n, p).value.n, rest, home);
      }
    }
  }

  lemma EmptyNodeIsGood(home: nat -> nat)
    ensures NodeTracks(EmptyNode, EmptyNode) && Good(EmptyNode) && Coherent(EmptyNode.broker)
    ensures Homed(EmptyNode.broker, home)
  {
    hide Coherent;
    EmptyIsGood();
  }

  /** Any replica of such a log, from nothing and through any snapshots that fit, answers every proposal
      like one that applied the whole log, and ends with its state and sessions. */
  lemma HomedNodesConverge(events: seq<NodeEvent>, home: nat -> nat)
    requires AllKeepHome(Proposals(events), home) && AllDecode(Proposals(events))
    requires NoneOverflows(EmptyNode, Proposals(events)) && CodecsGood(events) && AllFit(EmptyNode, events)
    ensures NodeTracks(NodeReplica(EmptyNode, events), NodeAfter(EmptyNode, Proposals(events)))
    ensures NodeReplies(EmptyNode, events) == Responses(EmptyNode, Proposals(events))
  {
    hide *;
    EmptyNodeIsGood(home);
    HomedNodeIsSafe(EmptyNode, Proposals(events), home);
    NodesConverge(EmptyNode, EmptyNode, events);
  }
}
