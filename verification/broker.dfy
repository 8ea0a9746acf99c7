/** The Broker state machine as the in-place object it is: every method updates the authoritative maps
    and the indexes step by step, and is proved to do exactly what `BrokerMachine` says. */
module Broker {
  import opened Order
  import opened Tasks
  import opened Groups
  import opened BrokerState
  import opened BrokerMachine
  import opened Coherence
  import opened ClaimRefinement
  import opened Refinement
  import opened Checkpoints

  class BrokerStateMachine {
    var state: State
    var ready: map<nat, multiset<Key>>
    var expirations: map<nat, multiset<Key>>
    var active: map<nat, nat>
    var held: map<(nat, nat), set<nat>>
    var completed: multiset<Key>
    var taskCounts: map<nat, nat>
    var groupCounts: map<nat, nat>
    var changes: Changes

    ghost function Abs(): Machine
      reads this
    {
      Machine(state, ready, expirations, active, held, completed, taskCounts, groupCounts, changes)
    }

    constructor ()
      ensures Abs() == EmptyMachine
    {
      state := EmptyState;
      ready, expirations, active, held := map[], map[], map[], map[];
      completed, taskCounts, groupCounts, changes := multiset{}, map[], map[], NoChanges;
    }

    // ---- Commands without loops ----

    method EnsureNamespace(ns: nat, max: nat) returns (r: Result<Reply, Error>)
      requires changes == NoChanges
      modifies this
      ensures Ran(Abs(), r) == TakeOutcome(old(Abs()), EnsureNamespaceStep(old(state), ns, max))
    {
      if ns in state.namespaces {
        return Ok(NamespaceReply(MetaOf(state), ns, state.namespaces[ns]));
      }
      if max == 0 {
        return Err(InvalidCapacity(NamespaceCapacity));
      }
      if |state.namespaces| >= max {
        return Err(CapacityExceeded(NamespaceCapacity, max));
      }
      if state.revision >= U64_MAX {
        return Err(CounterOverflow);
      }
      state := state.(namespaces := state.namespaces[ns := 1], revision := state.revision + 1);
      changes := changes.(namespaces := changes.namespaces + {ns});
      r := Ok(NamespaceReply(MetaOf(state), ns, 1));
    }

    method PublishTask(c: Command) returns (r: Result<Reply, Error>)
      requires changes == NoChanges && c.PublishTask?
      modifies this
      ensures Ran(Abs(), r) == PublishRun(old(Abs()), c)
    {
      hide Push, HeapAt, CountAt;
      if c.ns !in state.namespaces {
        return Err(NamespaceNotFound(c.ns));
      }
      if c.task in state.tasks {
        var existing := state.tasks[c.task];
        if existing.ns != c.ns || existing.objective != c.objective {
          return Err(TaskConflict(c.task));
        }
        return Ok(PublishedReply(MetaOf(state), c.task, existing.revision, Status(existing)));
      }
      if c.maxTasks == 0 {
        return Err(InvalidCapacity(TaskCapacity));
      }
      var count := CountAt(taskCounts, c.ns);
      if count >= c.maxTasks {
        return Err(CapacityExceeded(TaskCapacity, c.maxTasks));
      }
      if state.revision >= U64_MAX {
        return Err(CounterOverflow);
      }
      var task := NewTask(c.ns, c.objective, c.createdAt);
      state := state.(tasks := state.tasks[c.task := task], revision := state.revision + 1);
      taskCounts := taskCounts[c.ns := count + 1];
      ready := Push(ready, c.ns, Key(c.createdAt, c.task, 0));
      changes := changes.(tasks := changes.tasks + {c.task});
      r := Ok(PublishedReply(MetaOf(state), c.task, task.revision, Status(task)));
    }

    method EnsureGroup(c: Command) returns (r: Result<Reply, Error>)
      requires changes == NoChanges && c.EnsureGroup?
      modifies this
      ensures Ran(Abs(), r) == EnsureGroupRun(old(Abs()), c)
    {
      hide CountAt;
      if c.ns !in state.namespaces {
        return Err(NamespaceNotFound(c.ns));
      }
      if c.group in state.groups {
        if state.groups[c.group].ns != c.ns {
          return Err(GroupConflict(c.group));
        }
        return Ok(GroupReplyOf(state, c.group));
      }
      if c.maxGroups == 0 {
        return Err(InvalidCapacity(GroupCapacity));
      }
      var count := CountAt(groupCounts, c.ns);
      if count >= c.maxGroups {
        return Err(CapacityExceeded(GroupCapacity, c.maxGroups));
      }
      if state.revision >= U64_MAX {
        return Err(CounterOverflow);
      }
      state := state.(groups := state.groups[c.group := NewGroup(c.ns)], revision := state.revision + 1);
      groupCounts := groupCounts[c.ns := count + 1];
      changes := changes.(groups := changes.groups + {c.group});
      r := Ok(GroupReplyOf(state, c.group));
    }

    method JoinGroup(group: nat, member: nat, capabilities: set<nat>, now: nat, max: nat)
      returns (r: Result<Reply, Error>)
      requires changes == NoChanges
      modifies this
      ensures Ran(Abs(), r) == TakeOutcome(old(Abs()), JoinStep(old(state), group, member, capabilities, now, max))
    {
      if state.revision >= U64_MAX {
        return Err(CounterOverflow);
      }
      if group !in state.groups {
        return Err(GroupNotFound(group));
      }
      var joined := Groups.JoinGroup(state.groups[group], member, capabilities, now, max);
      if joined.Err? {
        return Err(GroupTransition(joined.error));
      }
      if !joined.value.1.Unchanged? {
        state := state.(groups := state.groups[group := joined.value.0], revision := state.revision + 1);
        changes := changes.(groups := changes.groups + {group});
      }
      r := Ok(GroupReplyOf(state, group));
    }

    method Heartbeat(group: nat, member: nat, expectedGeneration: nat, now: nat) returns (r: Result<Reply, Error>)
      requires changes == NoChanges
      modifies this
      ensures Ran(Abs(), r) ==
                TakeOutcome(old(Abs()), HeartbeatStep(old(state), group, member, expectedGeneration, now))
    {
      if state.revision >= U64_MAX {
        return Err(CounterOverflow);
      }
      if group !in state.groups {
        return Err(GroupNotFound(group));
      }
      var beaten := HeartbeatGroup(state.groups[group], member, expectedGeneration, now);
      if beaten.Err? {
        return Err(GroupTransition(beaten.error));
      }
      var g := beaten.value.0;
      if beaten.value.1 {
        state := state.(groups := state.groups[group := g], revision := state.revision + 1);
        changes := changes.(groups := changes.groups + {group});
      }
      r := Ok(HeartbeatReply(MetaOf(state), group, member, g.generation,
                             if member in g.consumers then g.consumers[member].revision else 0));
    }

    method AdvanceTerm(expectedTerm: nat, newTerm: nat) returns (r: Result<Reply, Error>)
      requires changes == NoChanges
      modifies this
      ensures Ran(Abs(), r) == TakeOutcome(old(Abs()), AdvanceTermStep(old(state), expectedTerm, newTerm))
    {
      if state.term != expectedTerm {
        return Err(StaleTerm(expectedTerm, state.term));
      }
      if newTerm <= state.term {
        return Err(NewTermNotGreater(state.term, newTerm));
      }
      if state.revision >= U64_MAX {
        return Err(CounterOverflow);
      }
      state := state.(term := newTerm, revision := state.revision + 1);
      r := Ok(TermReply(MetaOf(state)));
    }

    method RenewLease(c: Command) returns (r: Result<Reply, Error>)
      requires changes == NoChanges && c.RenewLease?
      modifies this
      ensures Ran(Abs(), r) == RenewRun(old(Abs()), c)
    {
      hide Push, HeapAt, Admit, RequireActiveLease;
      var refused := Admit(state, c.expectedTerm, c.group, c.member, c.expectedGeneration);
      if refused.Some? {
        return Err(refused.value);
      }
      if c.now + c.duration > U64_MAX {
        return Err(TimestampOverflow);
      }
      if state.revision >= U64_MAX {
        return Err(CounterOverflow);
      }
      if c.task !in state.tasks {
        return Err(TaskNotFound(c.task));
      }
      var fence := Fence(c.lease, c.member, c.group, c.expectedGeneration, c.expectedEpoch, c.now);
      var renewed := RenewTask(state.tasks[c.task], fence, c.now + c.duration);
      if renewed.Err? {
        return Err(TaskTransition(renewed.error));
      }
      var task := renewed.value;
      state := state.(tasks := state.tasks[c.task := task], revision := state.revision + 1);
      expirations := Push(expirations, task.ns, Key(c.now + c.duration, c.task, Epoch(task)));
      changes := changes.(tasks := changes.tasks + {c.task});
      r := Ok(RenewedReply(MetaOf(state), c.task, task.revision, c.lease,
               Epoch(task), c.now + c.duration, c.expectedGeneration));
    }

    method CompleteTask(c: Command) returns (r: Result<Reply, Error>)
      requires changes == NoChanges && c.CompleteTask?
      modifies this
      ensures Ran(Abs(), r) == CompleteRun(old(Abs()), c)
    {
      hide RemoveHeld, Admit, RequireActiveLease;
      var refused := Admit(state, c.expectedTerm, c.group, c.member, c.expectedGeneration);
      if refused.Some? {
        return Err(refused.value);
      }
      if state.revision >= U64_MAX {
        return Err(CounterOverflow);
      }
      if c.task !in state.tasks {
        return Err(TaskNotFound(c.task));
      }
      var fence := Fence(c.lease, c.member, c.group, c.expectedGeneration, c.expectedEpoch, c.completedAt);
      var done := Tasks.CompleteTask(state.tasks[c.task], fence, c.result);
      if done.Err? {
        return Err(TaskTransition(done.error));
      }
      var task := done.value.0;
      if done.value.1 {
        state := state.(tasks := state.tasks[c.task := task], revision := state.revision + 1);
        active := active - {c.lease};
        held := RemoveHeld(held, (c.group, c.member), c.task);
        completed := completed + multiset{Key(c.completedAt, c.task, 0)};
        changes := changes.(tasks := changes.tasks + {c.task});
      }
      r := Ok(CompletedReply(MetaOf(state), c.task, task.revision, Status(task)));
    }

    // ---- Claim ----

    /** Requeue one leased Task: its state and four of the indexes move together. */
    method Requeue(t: nat, ns: nat)
      requires t in state.tasks && state.tasks[t].state.Leased?
      modifies this
      ensures Abs() == RequeueOne(old(Abs()), t, ns)
    {
      hide RemoveHeld, Push, HeapAt;
      var task := state.tasks[t];
      var lease := task.state.lease;
      state := state.(tasks := state.tasks[t := Requeued(task)]);
      active := active - {lease.leaseId};
      held := RemoveHeld(held, (lease.group, lease.owner), t);
      ready := Push(ready, ns, ReadyKey(t, task));
      changes := changes.(tasks := changes.tasks + {t});
    }

    /** Pop every entry that is due; the candidates are those that name a current lease. */
    method DrainDue(ns: nat, now: nat) returns (candidates: set<nat>)
      requires ns in expirations
      modifies this`expirations
      ensures expirations == old(expirations)[ns := Drain(old(expirations[ns]), now)]
      ensures candidates == Due(old(expirations[ns]), state.tasks, now)
    {
      hide Drain, Due, MinKey;
      var heap := expirations[ns];
      candidates := {};
      while heap != multiset{} && MinKey(Support(heap)).at <= now
        invariant expirations == old(expirations)
        invariant Drain(heap, now) == Drain(old(expirations[ns]), now)
        invariant candidates + Due(heap, state.tasks, now) == Due(old(expirations[ns]), state.tasks, now)
        decreases |heap|
      {
        ghost var before := heap;
        var k;
        k, heap := PopLeast(heap);
        DuePopped(before, state.tasks, now);
        if Matches(state.tasks, k) {
          candidates := candidates + {k.id};
        }
      }
      DueLater(heap, state.tasks, now);
      expirations := expirations[ns := heap];
    }

    method RecoverExpiredLeases(ns: nat, now: nat) returns (r: Result<nat, Error>)
      modifies this
      ensures
        var swept := RecoverExpired(old(Abs()), ns, now);
        Abs() == swept.m && r == if swept.failed.Some? then Err(swept.failed.value) else Ok(swept.count)
    {
      if ns !in expirations {
        return Ok(0);
      }
      var ids := DrainDue(ns, now);
      var recovered := 0;
      while ids != {}
        invariant RequeueExpired(Abs(), ns, ids, now, recovered) == RecoverExpired(old(Abs()), ns, now)
        decreases |ids|
      {
        var t := MinId(ids);
        MinIdIn(ids);
        if t in state.tasks {
          var requeued := RequeueIfExpired(state.tasks[t], now);
          if requeued.Err? {
            return Err(TaskTransition(requeued.error));
          }
          if requeued.value.1 {
            Requeue(t, ns);
            recovered := recovered + 1;
          }
        }
        ids := ids - {t};
      }
      r := Ok(recovered);
    }

    method PopReadyTask(ns: nat) returns (r: Option<nat>)
      modifies this`ready
      ensures
        var (heap, popped) := PopReady(HeapAt(old(ready), ns), state.tasks);
        && ready == (if ns in old(ready) then old(ready)[ns := heap] else old(ready)) && r == popped
    {
      if ns !in ready {
        return None;
      }
      var heap := ready[ns];
      while heap != multiset{}
        invariant ready == old(ready)
        invariant PopReady(heap, state.tasks) == PopReady(HeapAt(old(ready), ns), state.tasks)
        decreases |heap|
      {
        var k;
        k, heap := PopLeast(heap);
        if k.id in state.tasks && state.tasks[k.id].state.Queued? {
          ready := ready[ns := heap];
          return Some(k.id);
        }
      }
      ready := ready[ns := heap];
      r := None;
    }

    method ClaimTask(c: Command) returns (r: Result<Reply, Error>)
      requires changes == NoChanges && c.ClaimTask?
      modifies this
      ensures Ran(Abs(), r) == ClaimRun(old(Abs()), c)
    {
      hide RecoverExpired, PopReady, GrantLease;
      var refused := Admit(state, c.expectedTerm, c.group, c.member, c.expectedGeneration);
      if refused.Some? {
        return Err(refused.value);
      }
      if c.lease in active {
        var t := active[c.lease];
        if t !in state.tasks {
          return Err(TaskNotFound(t));
        }
        if HeldBy(state.tasks[t], c.group, c.member) {
          return Ok(ClaimReplyOf(state, t, state.tasks[t], c.expectedGeneration));
        }
        return Err(LeaseIdConflict(c.lease));
      }
      var ns := state.groups[c.group].ns;
      var recovered := RecoverExpiredLeases(ns, c.now);
      if recovered.Err? {
        return Err(recovered.error);
      }
      var popped := PopReadyTask(ns);
      if popped.None? {
        if recovered.value > 0 {
          if state.revision >= U64_MAX {
            return Err(CounterOverflow);
          }
          state := state.(revision := state.revision + 1);
        }
        return Ok(NoClaim(state, c.expectedGeneration));
      }
      r := Lend(c, ns, popped.value);
    }

    /** The deadline and the counters are checked only now, after the Task left the ready heap. */
    method Lend(c: Command, ns: nat, t: nat) returns (r: Result<Reply, Error>)
      requires c.ClaimTask?
      modifies this
      ensures Ran(Abs(), r) == GrantLease(old(Abs()), c, ns, t)
    {
      hide AddHeld, Push, HeapAt, LeasesOf;
      if c.now + c.duration > U64_MAX {
        return Err(TimestampOverflow);
      }
      if state.revision >= U64_MAX {
        return Err(CounterOverflow);
      }
      if t !in state.tasks {
        return Err(TaskNotFound(t));
      }
      var claimed := Tasks.ClaimTask(state.tasks[t],
                                      Grant(c.lease, c.member, c.group, c.expectedGeneration, c.now + c.duration));
      if claimed.Err? {
        return Err(TaskTransition(claimed.error));
      }
      var task := claimed.value;
      state := state.(tasks := state.tasks[t := task], revision := state.revision + 1);
      active := active[c.lease := t];
      held := AddHeld(held, (c.group, c.member), t);
      expirations := Push(expirations, ns, LeaseKey(t, task.state.lease));
      changes := changes.(tasks := changes.tasks + {t});
      r := Ok(ClaimReplyOf(state, t, task, c.expectedGeneration));
    }

    // ---- Leave and reap ----

    method PreflightRequeue(group: nat, member: nat) returns (ok: bool)
      ensures ok == Preflight(Abs(), group, member)
    {
      var ids := LeasesOf(held, (group, member));
      while ids != {}
        invariant ids <= LeasesOf(held, (group, member))
        invariant forall t | t in LeasesOf(held, (group, member)) - ids ::
                    t in state.tasks && HeldBy(state.tasks[t], group, member) ==> state.tasks[t].revision < U64_MAX
        decreases |ids|
      {
        var t := MinId(ids);
        MinIdIn(ids);
        if t in state.tasks && HeldBy(state.tasks[t], group, member) && state.tasks[t].revision >= U64_MAX {
          return false;
        }
        ids := ids - {t};
      }
      ok := true;
    }

    method RequeueMemberLeases(group: nat, member: nat) returns (failed: Option<Error>)
      modifies this
      ensures
        var swept := RequeueMember(old(Abs()), group, member);
        Abs() == swept.m && failed == swept.failed
    {
      var ids := LeasesOf(held, (group, member));
      held := held - {(group, member)};
      while ids != {}
        invariant RequeueHeld(Abs(), group, member, ids) == RequeueMember(old(Abs()), group, member)
        decreases |ids|
      {
        var t := MinId(ids);
        MinIdIn(ids);
        if t in state.tasks && HeldBy(state.tasks[t], group, member) {
          var requeued := RequeueForMember(state.tasks[t], group, member);
          if requeued.Err? {
            return Some(TaskTransition(requeued.error));
          }
          Requeue(t, state.tasks[t].ns);
        }
        ids := ids - {t};
      }
      failed := None;
    }

    method LeaveGroup(c: Command) returns (r: Result<Reply, Error>)
      requires changes == NoChanges && c.LeaveGroup?
      modifies this
      ensures Ran(Abs(), r) == LeaveRun(old(Abs()), c)
    {
      hide RequeueMember, Preflight;
      if state.revision >= U64_MAX {
        return Err(CounterOverflow);
      }
      var next := state.revision + 1;
      var able := PreflightRequeue(c.group, c.member);
      if !able {
        return Err(CounterOverflow);
      }
      if c.group !in state.groups {
        return Err(GroupNotFound(c.group));
      }
      var left := Groups.LeaveGroup(state.groups[c.group], c.member, c.expectedGeneration);
      if left.Err? {
        return Err(GroupTransition(left.error));
      }
      var g := left.value;
      state := state.(groups := state.groups[c.group := g]);
      var failed := RequeueMemberLeases(c.group, c.member);
      if failed.Some? {
        return Err(failed.value);
      }
      state := state.(revision := next);
      changes := changes.(groups := changes.groups + {c.group});
      r := Ok(GroupReply(MetaOf(state), c.group, g.generation, g.revision, |g.consumers|));
    }

    /** Every affected group and every lease of a selected member can advance its counters. */
    method PreflightReap(selected: set<Key>) returns (ok: bool)
      ensures ok <==>
                CanAdvance(state.groups, AffectedGroups(selected)) &&
                forall k | k in selected :: Preflight(Abs(), k.id, k.tag)
    {
      hide Preflight;
      var groups := AffectedGroups(selected);
      var waiting := selected;
      while groups != {}
        invariant groups <= AffectedGroups(selected) && CanAdvance(state.groups, AffectedGroups(selected) - groups)
        decreases |groups|
      {
        var g := MinId(groups);
        MinIdIn(groups);
        if g in state.groups && (state.groups[g].generation >= U64_MAX || state.groups[g].revision >= U64_MAX) {
          return false;
        }
        groups := groups - {g};
      }
      assert AffectedGroups(selected) - {} == AffectedGroups(selected);
      while waiting != {}
        invariant waiting <= selected && forall k | k in selected - waiting :: Preflight(Abs(), k.id, k.tag)
        decreases |waiting|
      {
        var k := MinKey(waiting);
        var able := PreflightRequeue(k.id, k.tag);
        if !able {
          return false;
        }
        waiting := waiting - {k};
      }
      ok := true;
    }

    method ReapOneGroup(selected: set<Key>, g: nat, before: nat) returns (removed: set<Key>, failed: Option<Error>)
      modifies this
      ensures Turn(Abs(), removed, failed) == ReapTurn(old(Abs()), selected, g, before)
    {
      hide RequeueMember;
      if g !in state.groups {
        return {}, Some(GroupNotFound(g));
      }
      var reaped := ReapGroup(state.groups[g], before, |KeysOf(selected, g)|);
      if reaped.Err? {
        return {}, Some(GroupTransition(reaped.error));
      }
      state := state.(groups := state.groups[g := reaped.value.0]);
      removed := reaped.value.1;
      ghost var start := Abs();
      var waiting := removed;
      while waiting != {}
        invariant RequeueRemoved(Abs(), g, waiting) == RequeueRemoved(start, g, removed)
        decreases |waiting|
      {
        var k := MinKey(waiting);
        failed := RequeueMemberLeases(g, k.id);
        if failed.Some? {
          return;
        }
        waiting := waiting - {k};
      }
      failed := None;
    }

    method ReapSelected(selected: set<Key>, before: nat) returns (count: nat, affected: set<nat>, failed: Option<Error>)
      modifies this
      ensures Reaped(Abs(), count, affected, failed) ==
                ReapGroups(old(Abs()), selected, AffectedGroups(selected), before, 0, {})
    {
      hide ReapTurn, AffectedGroups;
      var groups := AffectedGroups(selected);
      count, affected := 0, {};
      while groups != {}
        invariant ReapGroups(Abs(), selected, groups, before, count, affected) ==
                  ReapGroups(old(Abs()), selected, AffectedGroups(selected), before, 0, {})
        decreases |groups|
      {
        var g := MinId(groups);
        MinIdIn(groups);
        var removed;
        removed, failed := ReapOneGroup(selected, g, before);
        if failed.Some? {
          return;
        }
        if removed != {} {
          count, affected := count + |removed|, affected + {g};
        }
        groups := groups - {g};
      }
      failed := None;
    }

    method ReapStaleMembers(before: nat, max: nat) returns (r: Result<Reply, Error>)
      requires changes == NoChanges
      modifies this
      ensures Ran(Abs(), r) == ReapRun(old(Abs()), before, max)
    {
      hide ReapGroups, FirstN, StaleKeys, Preflight, CanAdvance, AffectedGroups;
      if max == 0 {
        return Err(InvalidCapacity(ReapCapacity));
      }
      var selected := FirstN(StaleKeys(state.groups, before), max);
      if selected == {} {
        return Ok(ReapedReply(MetaOf(state), 0, 0));
      }
      if state.revision >= U64_MAX {
        return Err(CounterOverflow);
      }
      var next := state.revision + 1;
      var able := PreflightReap(selected);
      if !able {
        return Err(CounterOverflow);
      }
      var count, affected, failed := ReapSelected(selected, before);
      if failed.Some? {
        return Err(failed.value);
      }
      if count > 0 {
        state := state.(revision := next);
        changes := changes.(groups := changes.groups + affected);
      }
      r := Ok(ReapedReply(MetaOf(state), count, |affected|));
    }

    // ---- Prune ----

    /** First pass, on a copy of the heap. */
    method SelectCompleted(cutoff: nat, max: nat) returns (selected: seq<nat>)
      ensures selected == Probe(completed, state.tasks, cutoff, max)
    {
      hide Probe, MinKey;
      var heap := completed;
      selected := [];
      while |selected| < max && heap != multiset{}
        invariant |selected| <= max
        invariant selected + Probe(heap, state.tasks, cutoff, max - |selected|) ==
                    Probe(completed, state.tasks, cutoff, max)
        decreases |heap|
      {
        ghost var chosen := selected;
        ProbeUnfolds(heap, state.tasks, cutoff, max - |selected|);
        var k;
        k, heap := PopLeast(heap);
        if k.at > cutoff {
          return;
        }
        if CompletedMatch(state.tasks, k) {
          selected := selected + [k.id];
          assert chosen + ([k.id] + Probe(heap, state.tasks, cutoff, max - |selected|)) ==
                 selected + Probe(heap, state.tasks, cutoff, max - |selected|);
        }
      }
      ProbeDone(heap, state.tasks, cutoff, max - |selected|);
    }

    /** The first namespace, in order, that retains fewer Tasks than were selected from it. */
    method FirstUnderflow(selected: seq<nat>) returns (bad: Option<nat>)
      ensures bad == if Underflows(Abs(), selected) == {} then None else Some(MinId(Underflows(Abs(), selected)))
    {
      hide SelectedIn;
      var all := set t | t in selected && t in state.tasks :: state.tasks[t].ns;
      var spaces := all;
      while spaces != {}
        invariant spaces <= all
        invariant forall n | n in all && n !in spaces ::
                    n !in Underflows(Abs(), selected) && forall j | j in spaces :: n < j
        decreases |spaces|
      {
        var ns := MinId(spaces);
        MinIdIn(spaces);
        if CountAt(taskCounts, ns) < SelectedIn(state.tasks, selected, ns) {
          UnderflowLeast(Abs(), selected, spaces, ns);
          return Some(ns);
        }
        spaces := spaces - {ns};
      }
      bad := None;
    }

    method Delete(t: nat) returns (failed: Option<Error>)
      requires t in state.tasks
      modifies this`state, this`taskCounts, this`changes
      ensures DeleteResult(Abs(), failed) == DeleteTask(old(Abs()), t)
    {
      var ns := state.tasks[t].ns;
      state := state.(tasks := state.tasks - {t});
      if ns !in taskCounts {
        return Some(TaskCountUnderflow(ns));
      }
      var count := taskCounts[ns];
      taskCounts := taskCounts[ns := if count > 0 then count - 1 else 0];
      changes := changes.(deleted := changes.deleted + {t});
      failed := None;
    }

    /** Second pass: delete as many as the probe selected. */
    method DeleteCompleted(total: nat, cutoff: nat) returns (pruned: nat, failed: Option<Error>)
      modifies this
      ensures Swept(Abs(), pruned, failed) == Destroy(old(Abs()), total, cutoff, 0)
    {
      hide Destroy, DeleteTask, MinKey;
      pruned := 0;
      while pruned < total && completed != multiset{}
        invariant pruned <= total
        invariant Destroy(Abs(), total - pruned, cutoff, pruned) == Destroy(old(Abs()), total, cutoff, 0)
        decreases |completed|
      {
        var k, rest := PopLeast(completed);
        DestroyUnfolds(Abs(), total - pruned, cutoff, pruned, k);
        if k.at > cutoff {
          assert rest + multiset{k} == completed;
          return pruned, None;
        }
        completed := rest;
        if CompletedMatch(state.tasks, k) {
          failed := Delete(k.id);
          if failed.Some? {
            return;
          }
          pruned := pruned + 1;
        }
      }
      failed := None;
      DestroyDone(Abs(), total - pruned, cutoff, pruned);
    }

    method PruneCompleted(cutoff: nat, max: nat) returns (r: Result<Reply, Error>)
      requires changes == NoChanges
      modifies this
      ensures Ran(Abs(), r) == PruneRun(old(Abs()), cutoff, max)
    {
      hide Probe, Destroy, Underflows;
      if max == 0 {
        return Err(InvalidCapacity(PruneCapacity));
      }
      var selected := SelectCompleted(cutoff, max);
      if selected == [] {
        return Ok(PrunedReply(MetaOf(state), 0));
      }
      var bad := FirstUnderflow(selected);
      if bad.Some? {
        return Err(TaskCountUnderflow(bad.value));
      }
      if state.revision >= U64_MAX {
        return Err(CounterOverflow);
      }
      var next := state.revision + 1;
      var pruned, failed := DeleteCompleted(|selected|, cutoff);
      if failed.Some? {
        return Err(failed.value);
      }
      if pruned > 0 {
        state := state.(revision := next);
      }
      r := Ok(PrunedReply(MetaOf(state), pruned));
    }

    // ---- Every command ----

    /** Apply one command from coherent indexes: the reply is the index-free one, the state and the
        change set are too unless a claim overflows, and the indexes stay coherent outside hazards. */
    method Apply(c: Command) returns (r: Result<Reply, Error>)
      modifies this
      ensures Ran(Abs(), r) == Exec(old(Abs()), c)
      ensures Coherent(old(Abs())) ==> r == Step(old(state), c).reply
      ensures Coherent(old(Abs())) && !ClaimOverflows(old(state), c) ==> Refines(Ran(Abs(), r), Step(old(state), c))
      ensures Coherent(old(Abs())) ==> (Coherent(Abs()) <==> !Hazard(old(Abs()), c))
    {
      hide Coherent, Exec, Step, Hazard, ClaimOverflows, Refines;
      r := Execute(c);
      if Coherent(old(Abs())) {
        ExecRefines(old(Abs()), c);
      }
    }

    /** The change set starts empty, and the result is exactly `Exec`, coherent or not. */
    method Execute(c: Command) returns (r: Result<Reply, Error>)
      modifies this
      ensures Ran(Abs(), r) == Exec(old(Abs()), c)
    {
      hide PublishRun, EnsureGroupRun, LeaveRun, ReapRun, ClaimRun, RenewRun, CompleteRun, PruneRun,
        EnsureNamespaceStep, JoinStep, HeartbeatStep, AdvanceTermStep;
      changes := NoChanges;
      match c {
        case EnsureNamespace(ns, max) => r := EnsureNamespace(ns, max);
        case PublishTask(_, _, _, _, _) => r := PublishTask(c);
        case EnsureGroup(_, _, _) => r := EnsureGroup(c);
        case JoinGroup(g, member, capabilities, now, max) => r := JoinGroup(g, member, capabilities, now, max);
        case Heartbeat(g, member, generation, now) => r := Heartbeat(g, member, generation, now);
        case LeaveGroup(_, _, _) => r := LeaveGroup(c);
        case ReapStaleMembers(before, max) => r := ReapStaleMembers(before, max);
        case ClaimTask(_, _, _, _, _, _, _) => r := ClaimTask(c);
        case RenewLease(_, _, _, _, _, _, _, _, _) => r := RenewLease(c);
        case CompleteTask(_, _, _, _, _, _, _, _, _) => r := CompleteTask(c);
        case PruneCompleted(cutoff, max) => r := PruneCompleted(cutoff, max);
        case AdvanceTerm(expected, term) => r := AdvanceTerm(expected, term);
      }
    }

    // ---- Restoring from a checkpoint ----

    static method LoadRecords<R, V, E>(records: seq<(nat, R)>, parse: R -> Result<V, E>, taken: nat -> E)
      returns (r: Result<map<nat, V>, E>)
      ensures r == Load(records, map[], parse, taken)
    {
      var loaded: map<nat, V> := map[];
      var i := 0;
      while i < |records|
        invariant 0 <= i <= |records|
        invariant Load(records[i..], loaded, parse, taken) == Load(records, map[], parse, taken)
      {
        assert records[i..][1..] == records[i + 1..];
        var parsed := parse(records[i].1);
        if parsed.Err? {
          return Err(parsed.error);
        }
        if records[i].0 in loaded {
          return Err(taken(records[i].0));
        }
        loaded := loaded[records[i].0 := parsed.value];
        i := i + 1;
      }
      r := Ok(loaded);
    }

    method IndexAll() returns (failed: Option<CheckpointError>)
      modifies this
      ensures match IndexTasks(old(Abs()), old(state.tasks.Keys))
              case Err(e) => failed == Some(e)
              case Ok(m) => failed == None && Abs() == m
    {
      var ids := state.tasks.Keys;
      while ids != {}
        invariant IndexTasks(Abs(), ids) == IndexTasks(old(Abs()), old(state.tasks.Keys))
        invariant state == old(state)
        decreases |ids|
      {
        var t := MinId(ids);
        MinIdIn(ids);
        if t in state.tasks {
          failed := Index(t, state.tasks[t]);
          if failed.Some? {
            return;
          }
        }
        ids := ids - {t};
      }
      failed := None;
    }

    method Index(t: nat, task: Task) returns (failed: Option<CheckpointError>)
      modifies this
      ensures match IndexTask(old(Abs()), t, task)
              case Err(e) => failed == Some(e)
              case Ok(m) => failed == None && Abs() == m
      ensures state == old(state)
    {
      hide Push, AddHeld;
      taskCounts := taskCounts[task.ns := CountAt(taskCounts, task.ns) + 1];
      failed := None;
      match task.state {
        case Queued(_) =>
          ready := Push(ready, task.ns, ReadyKey(t, task));
        case Leased(l) =>
          if l.leaseId in active {
            return Some(DuplicateActiveLease(l.leaseId));
          }
          active := active[l.leaseId := t];
          held := AddHeld(held, (l.group, l.owner), t);
          expirations := Push(expirations, task.ns, LeaseKey(t, l));
        case Completed(d) =>
          completed := completed + multiset{Key(d.completedAt, t, 0)};
      }
    }

    method CountAllGroups()
      requires groupCounts == map[]
      modifies this`groupCounts
      ensures groupCounts == CountGroups(state.groups, state.groups.Keys, map[])
    {
      var ids := state.groups.Keys;
      while ids != {}
        invariant CountGroups(state.groups, ids, groupCounts) == CountGroups(state.groups, state.groups.Keys, map[])
        decreases |ids|
      {
        var g := MinId(ids);
        MinIdIn(ids);
        if g in state.groups {
          var ns := state.groups[g].ns;
          groupCounts := groupCounts[ns := CountAt(groupCounts, ns) + 1];
        }
        ids := ids - {g};
      }
    }

    /** Restore a Broker from a checkpoint, or say why the checkpoint is not acceptable. */
    static method Restore(cp: Checkpoint) returns (r: Result<BrokerStateMachine, CheckpointError>)
      ensures match FromCheckpoint(cp)
              case Err(e) => r == Err(e)
              case Ok(m) => r.Ok? && fresh(r.value) && r.value.Abs() == m
    {
      hide Load, IndexTasks, CountGroups, ParseGroup, ParseTask;
      var namespaces := LoadRecords(cp.namespaces, ParseNamespace, (id: nat) => DuplicateNamespace(id));
      if namespaces.Err? {
        return Err(namespaces.error);
      }
      var groups := LoadRecords(cp.groups, g => ParseGroup(namespaces.value, g), (id: nat) => DuplicateGroup(id));
      if groups.Err? {
        return Err(groups.error);
      }
      var tasks := LoadRecords(cp.tasks, t => ParseTask(namespaces.value, t), (id: nat) => DuplicateTask(id));
      if tasks.Err? {
        return Err(tasks.error);
      }
      var broker := new BrokerStateMachine();
      broker.state := State(cp.term, cp.revision, namespaces.value, tasks.value, groups.value);
      broker.CountAllGroups();
      var failed := broker.IndexAll();
      if failed.Some? {
        return Err(failed.value);
      }
      r := Ok(broker);
    }
  }

  lemma UnderflowLeast(m: Machine, selected: seq<nat>, spaces: set<nat>, ns: nat)
    requires IsLeastId(ns, spaces) && CountAt(m.taskCounts, ns) < SelectedIn(m.state.tasks, selected, ns)
    requires spaces <= set t | t in selected && t in m.state.tasks :: m.state.tasks[t].ns
    requires forall n | n in Underflows(m, selected) :: n in spaces
    ensures Underflows(m, selected) != {} && MinId(Underflows(m, selected)) == ns
  {
    assert ns in Underflows(m, selected);
  }

  // ---- Loop steps ----

  lemma DuePopped(h: multiset<Key>, tasks: map<nat, Task>, now: nat)
    requires h != multiset{} && MinKey(Support(h)).at <= now
    ensures
      var k := MinKey(Support(h));
      && k in h && Drain(h, now) == Drain(h - multiset{k}, now)
      && Due(h, tasks, now) == Due(h - multiset{k}, tasks, now) + if Matches(tasks, k) then {k.id} else {}
  {
    var k := MinKey(Support(h));
    var rest := h - multiset{k};
    assert k in Support(h);
    forall j | j in h ensures j == k || j in rest {}
    assert forall j | j in rest :: j in h;
  }

  lemma DueLater(h: multiset<Key>, tasks: map<nat, Task>, now: nat)
    requires h == multiset{} || MinKey(Support(h)).at > now
    ensures Due(h, tasks, now) == {} && Drain(h, now) == h
  {
    forall k | k in h ensures k.at > now {
      assert k in Support(h);
    }
  }

  datatype DeleteResult = DeleteResult(m: Machine, failed: Option<Error>)

  /** Remove one Task from the map and from its namespace's count. */
  function DeleteTask(m: Machine, t: nat): DeleteResult
    requires t in m.state.tasks
  {
    var ns := m.state.tasks[t].ns;
    var removed := m.(state := m.state.(tasks := m.state.tasks - {t}));
    if ns !in m.taskCounts then DeleteResult(removed, Some(TaskCountUnderflow(ns)))
    else
      DeleteResult(removed.(taskCounts := m.taskCounts[ns := if m.taskCounts[ns] > 0 then m.taskCounts[ns] - 1 else 0],
                            changes := m.changes.(deleted := m.changes.deleted + {t})), None)
  }

  lemma ProbeDone(h: multiset<Key>, tasks: map<nat, Task>, cutoff: nat, n: nat)
    requires n == 0 || h == multiset{}
    ensures Probe(h, tasks, cutoff, n) == []
  {}

  lemma ProbeUnfolds(h: multiset<Key>, tasks: map<nat, Task>, cutoff: nat, n: nat)
    requires n > 0 && h != multiset{}
    ensures
      var k := MinKey(Support(h));
      && k in h
      && Probe(h, tasks, cutoff, n) ==
           if k.at > cutoff then []
           else if CompletedMatch(tasks, k) then [k.id] + Probe(h - multiset{k}, tasks, cutoff, n - 1)
           else Probe(h - multiset{k}, tasks, cutoff, n)
  {
    assert MinKey(Support(h)) in Support(h);
  }

  lemma DestroyDone(m: Machine, left: nat, cutoff: nat, count: nat)
    requires left == 0 || m.completed == multiset{}
    ensures Destroy(m, left, cutoff, count) == Swept(m, count, None)
  {}

  lemma DestroyUnfolds(m: Machine, left: nat, cutoff: nat, count: nat, k: Key)
    requires left > 0 && m.completed != multiset{} && k == MinKey(Support(m.completed))
    ensures Destroy(m, left, cutoff, count) ==
      var popped := m.(completed := m.completed - multiset{k});
      if k.at > cutoff then Swept(m, count, None)
      else if !CompletedMatch(m.state.tasks, k) then Destroy(popped, left, cutoff, count)
      else
        var r := DeleteTask(popped, k.id);
        if r.failed.Some? then Swept(r.m, count, r.failed) else Destroy(r.m, left - 1, cutoff, count + 1)
  {}
}
