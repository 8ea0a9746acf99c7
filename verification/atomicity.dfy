/** Failure atomicity: what a rejected command leaves behind. */
module Atomicity {
  import opened Order
  import opened Tasks
  import opened Groups
  import opened BrokerState
  import opened BrokerMachine
  import opened Coherence
  import opened ClaimRefinement
  import opened DepartureRefinement
  import opened PruneRefinement
  import opened Refinement

  lemma RejectedStep(s: State, c: Command)
    ensures Step(s, c).reply.Err? ==> Step(s, c) == Rejected(s, Step(s, c).reply.error)
  {
    hide FirstN, StaleKeys, CompletedKeys, RequeueAll, HeldByAny, InNamespace, GroupsInNamespace;
  }

  lemma LeaveAtomic(m: Machine, c: Command)
    requires Coherent(m) && m.changes == NoChanges && c.LeaveGroup? && LeaveRun(m, c).reply.Err?
    ensures LeaveRun(m, c).m == m
  {
    LeasesAreHeld(m, c.group, c.member);
    LeaveRefines(m, c);
    hide Coherent, Agrees, RequeueMember, LeaveFinish, Preflight, HeldTasks;
    if m.state.revision >= U64_MAX || !Preflight(m, c.group, c.member) || c.group !in m.state.groups ||
       Groups.LeaveGroup(m.state.groups[c.group], c.member, c.expectedGeneration).Err? {
      LeaveRefused(m, c);
    }
  }

  lemma ReapAtomic(m: Machine, before: nat, max: nat)
    requires Coherent(m) && m.changes == NoChanges && ReapRun(m, before, max).reply.Err?
    ensures ReapRun(m, before, max).m == m
  {
    Parts(m);
    ReapRunIs(m, before, max);
    ReapRefines(m, before, max);
    RejectedStep(m.state, ReapStaleMembers(before, max));
    hide Coherent, ReapRun, FirstN, StaleKeys, ReapAll, RequeueAll, HeldByAny, CanAdvance, CanRequeue, ReapFinish,
      ReapGroups;
  }

  lemma PruneAtomic(m: Machine, cutoff: nat, max: nat)
    requires Coherent(m) && m.changes == NoChanges && PruneRun(m, cutoff, max).reply.Err?
    ensures PruneRun(m, cutoff, max).m == m
  {
    hide Coherent, PruneRun, FirstN, CompletedKeys, Members, Probe, Underflows, Destroy, PruneFinish,
      PruneRefinement.Within;
    PruneRefines(m, cutoff, max);
    Parts(m);
    WithinSelf(m.state.tasks);
    ProbeSelects(m.state.tasks, m.state.tasks, m.completed, cutoff, max);
    NoUnderflow(m, cutoff, max);
    PruneRunIs(m, cutoff, max);
  }

  lemma ClaimAtomic(m: Machine, c: Command)
    requires Coherent(m) && m.changes == NoChanges && c.ClaimTask? && ClaimRun(m, c).reply.Err?
    requires !ClaimOverflows(m.state, c)
    ensures ClaimRun(m, c).m == m
  {
    ActiveIsHolder(m, c.lease);
    ClaimRefines(m, c);
    if FreshClaim(m.state, c) {
      ClaimAccepted(m.state, c);
    }
  }

  lemma ClaimAccepted(s: State, c: Command)
    requires FreshClaim(s, c) && !ClaimOverflows(s, c)
    ensures ClaimStep(s, c).reply.Ok?
  {}

  lemma SimpleAtomic(m: Machine, c: Command)
    requires m.changes == NoChanges && !c.LeaveGroup? && !c.ReapStaleMembers? && !c.ClaimTask? && !c.PruneCompleted?
    requires Exec(m, c).reply.Err?
    ensures Exec(m, c).m == m
  {}

  /** A rejected command leaves the machine, indexes included, exactly as it was; the one exception
      is a claim that overflows after it began to recover leases or had already popped a Task. */
  lemma FailureIsAtomic(m: Machine, c: Command)
    requires Coherent(m) && Exec(m, c).reply.Err?
    ensures Exec(m, c).m == m.(changes := NoChanges) <==> !ClaimOverflows(m.state, c)
  {
    hide Coherent, ClaimOverflows, LeaveRun, ReapRun, ClaimRun, PruneRun, Step, PublishRun, EnsureGroupRun, RenewRun,
      CompleteRun, EnsureNamespaceStep, JoinStep, HeartbeatStep, AdvanceTermStep;
    var m' := m.(changes := NoChanges);
    RestatedAgrees(m, m.state.revision, NoChanges);
    ExecRefines(m, c);
    if ClaimOverflows(m.state, c) {
      OverflowIsHazard(m, c);
    } else {
      match c
      case LeaveGroup(_, _, _) => LeaveAtomic(m', c);
      case ReapStaleMembers(before, max) => ReapAtomic(m', before, max);
      case PruneCompleted(cutoff, max) => PruneAtomic(m', cutoff, max);
      case ClaimTask(_, _, _, _, _, _, _) => ClaimAtomic(m', c);
      case _ => SimpleAtomic(m', c);
    }
  }

  lemma OverflowIsHazard(m: Machine, c: Command)
    requires ClaimOverflows(m.state, c)
    ensures Hazard(m, c)
  {}

  // ---- What an overflowing claim does to the authoritative state ----

  /** The claim requeues at least one expired lease before it fails. */
  predicate Strays(s: State, c: Command) {
    && ClaimOverflows(s, c) && ClaimExpired(s, c) != {}
    && s.tasks[MinId(ClaimExpired(s, c))].revision < U64_MAX
  }

  lemma {:induction false} RequeueExpiredOnlyAdds(m: Machine, ns: nat, ids: set<nat>, now: nat, count: nat, t: nat)
    requires t in m.state.tasks && t !in ids
    ensures t in RequeueExpired(m, ns, ids, now, count).m.state.tasks
    ensures RequeueExpired(m, ns, ids, now, count).m.state.tasks[t] == m.state.tasks[t]
    decreases |ids|
  {
    if ids != {} {
      var u := MinId(ids);
      if u !in m.state.tasks {
        RequeueExpiredOnlyAdds(m, ns, ids - {u}, now, count, t);
      } else {
        var r := RequeueIfExpired(m.state.tasks[u], now);
        if r.Ok? {
          RequeueExpiredOnlyAdds(if r.value.1 then RequeueOne(m, u, ns) else m, ns, ids - {u}, now,
                                 if r.value.1 then count + 1 else count, t);
        }
      }
    }
  }

  lemma RecoverMoves(m: Machine, ns: nat, now: nat)
    requires Coherent(m) && ExpiredTasks(m.state.tasks, ns, now) != {}
    ensures
      var expired := ExpiredTasks(m.state.tasks, ns, now);
      var r := RecoverExpired(m, ns, now);
      if m.state.tasks[MinId(expired)].revision < U64_MAX then
        MinId(expired) in r.m.state.tasks && r.m.state.tasks[MinId(expired)] == Requeued(m.state.tasks[MinId(expired)])
      else r.m.state == m.state
  {
    var expired := ExpiredTasks(m.state.tasks, ns, now);
    DueIsExpired(m, ns, now);
    MinIdIn(expired);
    var t := MinId(expired);
    var drained := Drained(m, ns, now);
    assert ns in m.expirations by {
      Parts(m);
      assert LeaseKey(t, m.state.tasks[t].state.lease) in HeapAt(m.expirations, ns);
    }
    hide Coherent, Agrees;
    RequeueExpiredFirst(drained, ns, expired, now);
  }

  lemma RequeueExpiredFirst(m: Machine, ns: nat, ids: set<nat>, now: nat)
    requires ids != {} && AllExpired(m.state.tasks, ns, now, ids)
    ensures
      var t := MinId(ids);
      var r := RequeueExpired(m, ns, ids, now, 0);
      && t in m.state.tasks && m.state.tasks[t].state.Leased?
      && if m.state.tasks[t].revision < U64_MAX then
           t in r.m.state.tasks && r.m.state.tasks[t] == Requeued(m.state.tasks[t])
         else r.m.state == m.state
  {
    var t := MinId(ids);
    MinIdIn(ids);
    assert t in ExpiredTasks(m.state.tasks, ns, now);
    if m.state.tasks[t].revision < U64_MAX {
      RequeueExpiredOnlyAdds(RequeueOne(m, t, ns), ns, ids - {t}, now, 1, t);
    }
  }

  lemma OverflowState(m: Machine, c: Command)
    requires Coherent(m) && m.changes == NoChanges && ClaimOverflows(m.state, c)
    ensures ClaimRun(m, c).m.state == RecoverExpired(m, ClaimNamespace(m.state, c), c.now).m.state
  {
    var ns := ClaimNamespace(m.state, c);
    ActiveIsHolder(m, c.lease);
    assert ClaimRun(m, c) == ClaimFresh(m, c, ns);
    if CanRequeue(m.state.tasks, ClaimExpired(m.state, c)) {
      ClaimPops(m, c);
      AttemptRefused(m.state, c, RecoverExpired(m, ns, c.now).m);
    } else {
      RecoverFails(m, ns, c.now);
    }
  }

  lemma NothingExpired(m: Machine, ns: nat, now: nat)
    requires Coherent(m) && ExpiredTasks(m.state.tasks, ns, now) == {}
    ensures RecoverExpired(m, ns, now).m.state == m.state
  {
    DueIsExpired(m, ns, now);
  }

  /** An overflowing claim changes the authoritative state, with no new revision and nothing in the
      reply, exactly when an expired lease could be requeued before the failure. */
  lemma OverflowStrays(m: Machine, c: Command)
    requires Coherent(m) && ClaimOverflows(m.state, c)
    ensures Exec(m, c).m.state == m.state <==> !Strays(m.state, c)
  {
    var m' := m.(changes := NoChanges);
    RestatedAgrees(m, m.state.revision, NoChanges);
    hide Coherent, RecoverExpired, ClaimRun;
    var ns, expired := ClaimNamespace(m.state, c), ClaimExpired(m.state, c);
    OverflowState(m', c);
    if expired == {} {
      NothingExpired(m', ns, c.now);
    } else {
      RecoverMoves(m', ns, c.now);
    }
  }
}
