/** What every proposal of a committed log is answered, over whole runs. */
module Responding {
  import opened Order
  import opened BrokerState
  import opened BrokerMachine
  import opened Sessions
  import opened Nodes

  /** The replica just before entry `i` of the log. */
  function NodeAt(n: Node, log: seq<Proposal>, i: nat): Node
    requires i <= |log|
  {
    NodeAfter(n, log[..i])
  }

  lemma {:induction false} ResponseAt(n: Node, log: seq<Proposal>, i: nat)
    requires i < |Responses(n, log)|
    ensures |Responses(n, log)| <= |log|
    ensures Deliver(NodeAt(n, log, i), log[i]).Ok?
    ensures Responses(n, log)[i] == Deliver(NodeAt(n, log, i), log[i]).value.response
    ensures NodeAt(n, log, i + 1) == Deliver(NodeAt(n, log, i), log[i]).value.n
    decreases |log|
  {
    hide Deliver;
    var d := Deliver(n, log[0]).value;
    NoMoreResponses(d.n, log[1..]);
    assert log[..i + 1][0] == log[0] && log[..i + 1][1..] == log[1..][..i];
    if i == 0 {
      NodeAtStart(n, log);
      NodeAtStart(d.n, log[1..]);
    } else {
      ResponseAt(d.n, log[1..], i - 1);
      assert log[..i][0] == log[0] && log[..i][1..] == log[1..][..i - 1];
    }
  }

  lemma {:induction false} NoMoreResponses(n: Node, log: seq<Proposal>)
    ensures |Responses(n, log)| <= |log|
    decreases |log|
  {
    hide Deliver;
    if log != [] && Deliver(n, log[0]).Ok? {
      NoMoreResponses(Deliver(n, log[0]).value.n, log[1..]);
    }
  }

  /** Every entry of a log that decodes is answered. */
  lemma {:induction false} EveryEntryIsAnswered(n: Node, log: seq<Proposal>)
    requires AllDecode(log)
    ensures |Responses(n, log)| == |log|
    decreases |log|
  {
    hide Deliver, Decodes;
    if log != [] {
      DecodesDelivers(n, log[0]);
      EveryEntryIsAnswered(Deliver(n, log[0]).value.n, log[1..]);
    }
  }

  /** Every answered entry that the Broker executes is answered with what the Broker answered it there. */
  lemma ExecutedIsTold(n: Node, log: seq<Proposal>, i: nat)
    requires i < |Responses(n, log)|
    ensures i < |log|
    ensures
      var at := NodeAt(n, log, i);
      Executed(at, log[i]).Some? ==>
        && Tells(Responses(n, log)[i], Exec(at.broker, log[i].request.c).reply)
        && NodeAt(n, log, i + 1).broker == Exec(at.broker, log[i].request.c).m
  {
    ResponseAt(n, log, i);
    var at, p := NodeAt(n, log, i), log[i];
    hide NodeAfter, Responses, Deliver, Judge, Exec, Tells;
    DecodesDelivers(at, p);
    if Executed(at, p).Some? {
      if p.identity.Some? {
        Outcomes(at, p);
      } else {
        UnidentifiedOutcome(at, p);
      }
    }
  }

  // ---- Where a recorded response comes from ----

  /** Entry `j` executed the command under this identity and got this response. */
  predicate Origin(n: Node, log: seq<Proposal>, j: nat, id: Identity, c: Command, r: Response) {
    && j < |Responses(n, log)| <= |log|
    && log[j].identity == Some(id) && log[j].request == Run(c)
    && Executes(NodeAt(n, log, j), log[j]) && Responses(n, log)[j] == r
  }

  ghost predicate Traced(n: Node, log: seq<Proposal>, i: nat, k: nat, record: Record) {
    record.last.Some? ==>
      var last := record.last.value;
      exists j: nat :: j < i && Origin(n, log, j, Identity(k, record.epoch, record.instance, last.sequence),
                                       last.command, last.response)
  }

  ghost predicate AllTraced(n: Node, log: seq<Proposal>, i: nat, sessions: map<nat, Record>) {
    forall k :: k in sessions ==> Traced(n, log, i, k, sessions[k])
  }

  lemma TracedLater(n: Node, log: seq<Proposal>, i: nat, k: nat, record: Record)
    requires Traced(n, log, i, k, record)
    ensures Traced(n, log, i + 1, k, record)
  {
    hide Origin;
  }

  lemma TracedStep(n: Node, log: seq<Proposal>, i: nat, k: nat)
    requires i < |Responses(n, log)| && i < |log| && AllTraced(n, log, i, NodeAt(n, log, i).sessions)
    requires k in NodeAt(n, log, i + 1).sessions
    ensures Traced(n, log, i + 1, k, NodeAt(n, log, i + 1).sessions[k])
  {
    hide NodeAfter, Responses, Deliver, Judge, Exec, Traced;
    ResponseAt(n, log, i);
    var at, p := NodeAt(n, log, i), log[i];
    DecodesDelivers(at, p);
    if k in at.sessions {
      TracedLater(n, log, i, k, at.sessions[k]);
    }
    if p.identity.Some? {
      Outcomes(at, p);
      if Executes(at, p) && k == p.identity.value.session {
        TracedHere(n, log, i);
      }
    } else if p.request.Run? {
      UnidentifiedOutcome(at, p);
    } else {
      AcquireOutcomes(at, p);
      NothingRecorded(n, log, i + 1, k, NodeAt(n, log, i + 1).sessions[k]);
    }
  }

  lemma NothingRecorded(n: Node, log: seq<Proposal>, i: nat, k: nat, record: Record)
    ensures record.last.None? ==> Traced(n, log, i, k, record)
  {}

  lemma TracedHere(n: Node, log: seq<Proposal>, i: nat)
    requires i < |Responses(n, log)| && i < |log| && Executes(NodeAt(n, log, i), log[i])
    ensures
      var id := log[i].identity.value;
      Traced(n, log, i + 1, id.session,
             Record(id.epoch, id.instance, Some(Last(id.sequence, log[i].request.c, Responses(n, log)[i]))))
  {
    NoMoreResponses(n, log);
    hide NodeAfter, Responses, Judge;
    var id := log[i].identity.value;
    assert Origin(n, log, i, id, log[i].request.c, Responses(n, log)[i]);
  }

  lemma {:induction false} AllAreTraced(n: Node, log: seq<Proposal>, i: nat)
    requires n.sessions == map[] && i <= |Responses(n, log)|
    ensures i <= |log| && AllTraced(n, log, i, NodeAt(n, log, i).sessions)
  {
    hide NodeAfter, Responses, Traced;
    NoMoreResponses(n, log);
    if i == 0 {
      NodeAtStart(n, log);
    } else {
      AllAreTraced(n, log, i - 1);
      forall k | k in NodeAt(n, log, i).sessions ensures Traced(n, log, i, k, NodeAt(n, log, i).sessions[k]) {
        TracedStep(n, log, i - 1, k);
      }
    }
  }

  lemma NodeAtStart(n: Node, log: seq<Proposal>)
    ensures NodeAt(n, log, 0) == n
  {}

  /** Over every log from an empty session table, a command is answered in one of three ways: with what the
      Broker answered when it was executed there; with the response of an earlier entry that executed an
      equivalent command under the same identity; or by the fence. */
  lemma EveryCommandIsTold(n: Node, log: seq<Proposal>, i: nat)
    requires n.sessions == map[] && i < |Responses(n, log)| && i < |log| && log[i].request.Run?
    ensures
      var r, at, p := Responses(n, log)[i], NodeAt(n, log, i), log[i];
      || (Executed(at, p).Some? && Tells(r, Exec(at.broker, p.request.c).reply))
      || (Executed(at, p).None? && IsFenced(r))
      || (&& Executed(at, p).None? && p.identity.Some?
          && exists j: nat, c :: j < i && Origin(n, log, j, p.identity.value, c, r) && Erase(c) == Erase(p.request.c))
  {
    hide NodeAfter, Responses, Deliver, Judge, Exec, Tells, Traced, Origin, Erase;
    var at, p := NodeAt(n, log, i), log[i];
    ExecutedIsTold(n, log, i);
    if Executed(at, p).None? {
      ResponseAt(n, log, i);
      DecodesDelivers(at, p);
      NotExecuted(at, p);
      Verdicts(at, p);
      AllAreTraced(n, log, i);
      if !IsFenced(Responses(n, log)[i]) {
        RepeatedOrigin(n, log, i, p.identity.value);
      }
    }
  }

  lemma NotExecuted(n: Node, p: Proposal)
    requires Decodes(p) && p.request.Run? && Executed(n, p).None?
    ensures p.identity.Some? && !Executes(n, p)
  {
    hide Judge;
  }

  lemma RepeatedOrigin(n: Node, log: seq<Proposal>, i: nat, id: Identity)
    requires i <= |log| && AllTraced(n, log, i, NodeAt(n, log, i).sessions) && IsLast(NodeAt(n, log, i).sessions, id)
    ensures
      var last := NodeAt(n, log, i).sessions[id.session].last.value;
      exists j: nat :: j < i && Origin(n, log, j, id, last.command, last.response)
  {
    hide NodeAfter, Responses, Origin;
    assert Traced(n, log, i, id.session, NodeAt(n, log, i).sessions[id.session]);
  }
}
