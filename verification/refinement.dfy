/** Every command of the indexed machine computes the index-free step, and keeps the indexes in
    agreement except in exactly the situations named by `Hazard`. */
module Refinement {
  import opened Order
  import opened Tasks
  import opened Groups
  import opened BrokerState
  import opened BrokerMachine
  import opened Coherence
  import opened ClaimRefinement
  import opened DepartureRefinement
  import opened PruneRefinement

  predicate Refines(r: Ran, o: Outcome) {
    r.m.state == o.state && r.m.changes == o.changes && r.reply == o.reply
  }

  // ---- Commands that touch no Task ----

  /** Tasks as they were, groups in the same namespaces: every index still agrees. */
  lemma StateOnlyAgrees(m: Machine, o: Outcome)
    requires Coherent(m) && o.state.tasks == m.state.tasks && GroupCountsOk(o.state.groups, m.groupCounts)
    ensures Coherent(TakeOutcome(m, o).m)
  {}

  lemma JoinKeepsNamespaces(
    s: State, counts: map<nat, nat>, group: nat, member: nat, capabilities: set<nat>, now: nat, max: nat)
    requires GroupCountsOk(s.groups, counts)
    ensures
      var o := JoinStep(s, group, member, capabilities, now, max);
      o.state.tasks == s.tasks && GroupCountsOk(o.state.groups, counts)
  {
    if group in s.groups {
      var joined := Groups.JoinGroup(s.groups[group], member, capabilities, now, max);
      if joined.Ok? {
        GroupCountsKept(s.groups, counts, group, joined.value.0);
      }
    }
  }

  lemma HeartbeatKeepsNamespaces(s: State, counts: map<nat, nat>, group: nat, member: nat, generation: nat, now: nat)
    requires GroupCountsOk(s.groups, counts)
    ensures
      var o := HeartbeatStep(s, group, member, generation, now);
      o.state.tasks == s.tasks && GroupCountsOk(o.state.groups, counts)
  {
    if group in s.groups {
      var beaten := HeartbeatGroup(s.groups[group], member, generation, now);
      if beaten.Ok? {
        GroupCountsKept(s.groups, counts, group, beaten.value.0);
      }
    }
  }

  lemma GroupCounted(groups: map<nat, Group>, counts: map<nat, nat>, group: nat, g: Group)
    requires GroupCountsOk(groups, counts) && group !in groups
    ensures GroupCountsOk(groups[group := g], counts[g.ns := CountAt(counts, g.ns) + 1])
  {
    var groups' := groups[group := g];
    forall n: nat ensures CountAt(counts[g.ns := CountAt(counts, g.ns) + 1], n) == |GroupsInNamespace(groups', n)| {
      if n == g.ns {
        assert GroupsInNamespace(groups', n) == GroupsInNamespace(groups, n) + {group};
      } else {
        assert GroupsInNamespace(groups', n) == GroupsInNamespace(groups, n);
      }
    }
  }

  lemma EnsureGroupRunIs(m: Machine, c: Command)
    requires c.EnsureGroup? && m.changes == NoChanges
    requires CountAt(m.groupCounts, c.ns) == |GroupsInNamespace(m.state.groups, c.ns)|
    ensures
      var o := EnsureGroupSpec(m.state, c);
      var counted := m.(groupCounts := m.groupCounts[c.ns := CountAt(m.groupCounts, c.ns) + 1]);
      && Refines(EnsureGroupRun(m, c), o)
      && (if o.changes.groups != {} then
            && c.group !in m.state.groups && o.state.tasks == m.state.tasks
            && o.state.groups == m.state.groups[c.group := NewGroup(c.ns)]
            && EnsureGroupRun(m, c) == TakeOutcome(counted, o)
          else EnsureGroupRun(m, c).m == m)
  {}

  lemma EnsureGroupAgrees(m: Machine, c: Command)
    requires c.EnsureGroup? && Coherent(m) && c.group !in m.state.groups
    ensures
      var groups := m.state.groups[c.group := NewGroup(c.ns)];
      var counts := m.groupCounts[c.ns := CountAt(m.groupCounts, c.ns) + 1];
      forall o: Outcome | o.state.tasks == m.state.tasks && o.state.groups == groups ::
        Coherent(TakeOutcome(m.(groupCounts := counts), o).m)
  {
    Parts(m);
    GroupCounted(m.state.groups, m.groupCounts, c.group, NewGroup(c.ns));
    hide ReadyOk, CompletedOk, EveryLeaseExpires, NoForeignMatch, ActiveOk, HeldOk, TaskCountsOk, GroupCountsOk;
  }

  lemma EnsureGroupRefines(m: Machine, c: Command)
    requires Coherent(m) && m.changes == NoChanges && c.EnsureGroup?
    ensures Refines(EnsureGroupRun(m, c), EnsureGroupSpec(m.state, c)) && Coherent(EnsureGroupRun(m, c).m)
  {
    hide *;
    Counts(m, c.ns);
    EnsureGroupRunIs(m, c);
    if EnsureGroupSpec(m.state, c).changes.groups != {} {
      EnsureGroupAgrees(m, c);
    }
  }

  // ---- Publish ----

  lemma TaskCounted(tasks: map<nat, Task>, counts: map<nat, nat>, t: nat, task: Task)
    requires TaskCountsOk(tasks, counts) && t !in tasks
    ensures TaskCountsOk(tasks[t := task], counts[task.ns := CountAt(counts, task.ns) + 1])
  {
    var tasks' := tasks[t := task];
    forall n: nat ensures CountAt(counts[task.ns := CountAt(counts, task.ns) + 1], n) == |InNamespace(tasks', n)| {
      if n == task.ns {
        assert InNamespace(tasks', n) == InNamespace(tasks, n) + {t};
      } else {
        assert InNamespace(tasks', n) == InNamespace(tasks, n);
      }
    }
  }

  /** `m` after a new Task was published. */
  function Published(m: Machine, t: nat, task: Task): Machine {
    m.(state := m.state.(tasks := m.state.tasks[t := task], revision := m.state.revision + 1),
       taskCounts := m.taskCounts[task.ns := CountAt(m.taskCounts, task.ns) + 1],
       ready := Push(m.ready, task.ns, ReadyKey(t, task)),
       changes := NoChanges.(tasks := {t}))
  }

  lemma PublishAgrees(m: Machine, t: nat, task: Task)
    requires Coherent(m) && t !in m.state.tasks && task.state.Queued?
    ensures Coherent(Published(m, t, task))
  {
    hide *;
    Parts(m);
    PublishParts(m, t, task);
    Whole(Published(m, t, task));
  }

  lemma PublishParts(m: Machine, t: nat, task: Task)
    requires ReadyOk(m.state.tasks, m.ready) && CompletedOk(m.state.tasks, m.completed)
    requires EveryLeaseExpires(m.state.tasks, m.expirations, {}) && NoForeignMatch(m.state.tasks, m.expirations)
    requires ActiveOk(m.state.tasks, m.active) && HeldOk(m.state.tasks, m.held, {})
    requires TaskCountsOk(m.state.tasks, m.taskCounts) && GroupCountsOk(m.state.groups, m.groupCounts)
    requires t !in m.state.tasks && task.state.Queued?
    ensures
      var m' := Published(m, t, task);
      && ReadyOk(m'.state.tasks, m'.ready) && CompletedOk(m'.state.tasks, m'.completed)
      && EveryLeaseExpires(m'.state.tasks, m'.expirations, {}) && NoForeignMatch(m'.state.tasks, m'.expirations)
      && ActiveOk(m'.state.tasks, m'.active) && HeldOk(m'.state.tasks, m'.held, {})
      && TaskCountsOk(m'.state.tasks, m'.taskCounts) && GroupCountsOk(m'.state.groups, m'.groupCounts)
  {
    var tasks := m.state.tasks;
    TaskCounted(tasks, m.taskCounts, t, task);
    ReadyPushed(tasks, m.ready, t, task);
    CompletedKept(tasks, m.completed, t, task);
    ExpirationsDropped(tasks, m.expirations, {}, t, task);
    assert {} - {t} == {};
    UnleasedKept(tasks, m.active, m.held, t, task);
    hide ReadyOk, CompletedOk, EveryLeaseExpires, NoForeignMatch, ActiveOk, HeldOk, TaskCountsOk, GroupCountsOk;
  }

  /** The command admits a Task that was not there before. */
  predicate Publishes(s: State, c: Command)
    requires c.PublishTask?
  {
    PublishSpec(s, c).reply.Ok? && PublishSpec(s, c).changes.tasks != {}
  }

  lemma PublishAccepted(m: Machine, c: Command)
    requires c.PublishTask? && m.changes == NoChanges
    requires CountAt(m.taskCounts, c.ns) == |InNamespace(m.state.tasks, c.ns)|
    requires Publishes(m.state, c)
    ensures c.task !in m.state.tasks
    ensures PublishRun(m, c).m == Published(m, c.task, NewTask(c.ns, c.objective, c.createdAt))
    ensures Refines(PublishRun(m, c), PublishSpec(m.state, c))
  {
    hide InNamespace;
  }

  lemma PublishRefused(m: Machine, c: Command)
    requires c.PublishTask? && m.changes == NoChanges
    requires CountAt(m.taskCounts, c.ns) == |InNamespace(m.state.tasks, c.ns)|
    requires !Publishes(m.state, c)
    ensures PublishRun(m, c).m == m && Refines(PublishRun(m, c), PublishSpec(m.state, c))
  {}

  lemma PublishRefines(m: Machine, c: Command)
    requires Coherent(m) && m.changes == NoChanges && c.PublishTask?
    ensures Refines(PublishRun(m, c), PublishSpec(m.state, c)) && Coherent(PublishRun(m, c).m)
  {
    hide *;
    Counts(m, c.ns);
    if Publishes(m.state, c) {
      PublishAccepted(m, c);
      NewTaskIsQueued(c.ns, c.objective, c.createdAt);
      PublishAgrees(m, c.task, NewTask(c.ns, c.objective, c.createdAt));
    } else {
      PublishRefused(m, c);
    }
  }

  lemma NewTaskIsQueued(ns: nat, objective: nat, createdAt: nat)
    ensures NewTask(ns, objective, createdAt).state.Queued?
  {}

  lemma Counts(m: Machine, ns: nat)
    requires Coherent(m)
    ensures CountAt(m.taskCounts, ns) == |InNamespace(m.state.tasks, ns)|
    ensures CountAt(m.groupCounts, ns) == |GroupsInNamespace(m.state.groups, ns)|
  {}

  // ---- Renew ----

  /** The renewed lease's expiration entry already sits in another namespace's heap. */
  ghost predicate RenewHazard(m: Machine, c: Command) {
    && c.RenewLease? && RenewStep(m.state, c).reply.Ok?
    && Foreign(m.expirations, m.state.tasks[c.task].ns, Key(c.now + c.duration, c.task, Epoch(m.state.tasks[c.task])))
  }

  /** `m` after the lease of `t` was extended, giving `task`. */
  function Renewed(m: Machine, t: nat, task: Task): Machine
    requires task.state.Leased?
  {
    m.(state := m.state.(tasks := m.state.tasks[t := task], revision := m.state.revision + 1),
       expirations := Push(m.expirations, task.ns, LeaseKey(t, task.state.lease)),
       changes := NoChanges.(tasks := {t}))
  }

  predicate SameLease(a: Task, b: Task) {
    && a.state.Leased? && b.state.Leased? && a.ns == b.ns
    && b.state.lease == a.state.lease.(expiresAt := b.state.lease.expiresAt)
  }

  lemma SameLeaseKept(tasks: map<nat, Task>, active: map<nat, nat>, held: map<(nat, nat), set<nat>>, t: nat, task: Task)
    requires ActiveOk(tasks, active) && HeldOk(tasks, held, {}) && t in tasks && SameLease(tasks[t], task)
    ensures ActiveOk(tasks[t := task], active) && HeldOk(tasks[t := task], held, {})
  {}

  lemma RenewAgrees(m: Machine, t: nat, task: Task)
    requires Coherent(m) && t in m.state.tasks && SameLease(m.state.tasks[t], task)
    requires !Foreign(m.expirations, task.ns, LeaseKey(t, task.state.lease))
    ensures Coherent(Renewed(m, t, task))
  {
    Parts(m);
    var tasks := m.state.tasks;
    CountsKept(tasks, m.taskCounts, t, task);
    ReadyKept(tasks, m.ready, t, task);
    CompletedKept(tasks, m.completed, t, task);
    LeaseExpiresPushed(tasks, m.expirations, t, task);
    ForeignPushed(tasks, m.expirations, t, task);
    SameLeaseKept(tasks, m.active, m.held, t, task);
    hide ReadyOk, CompletedOk, EveryLeaseExpires, NoForeignMatch, ActiveOk, HeldOk, TaskCountsOk, GroupCountsOk;
  }

  lemma RenewDisagrees(m: Machine, t: nat, task: Task)
    requires Coherent(m) && task.state.Leased? && Foreign(m.expirations, task.ns, LeaseKey(t, task.state.lease))
    ensures !Coherent(Renewed(m, t, task))
  {
    hide *;
    Parts(m);
    ForeignPushed(m.state.tasks, m.expirations, t, task);
    RenewedNeeds(m, t, task);
  }

  lemma RenewedNeeds(m: Machine, t: nat, task: Task)
    requires task.state.Leased?
    ensures Coherent(Renewed(m, t, task)) ==>
              NoForeignMatch(m.state.tasks[t := task], Push(m.expirations, task.ns, LeaseKey(t, task.state.lease)))
  {}

  function RenewedTask(task: Task, expiresAt: nat): Task
    requires task.state.Leased?
  {
    task.(revision := task.revision + 1, state := Leased(task.state.lease.(expiresAt := expiresAt)))
  }

  /** An accepted renewal moves the deadline of the lease it names and nothing else. */
  lemma RenewStepIs(s: State, c: Command)
    requires c.RenewLease?
    ensures RenewStep(s, c).reply.Err? ==> RenewStep(s, c) == Outcome(s, NoChanges, RenewStep(s, c).reply)
    ensures RenewStep(s, c).reply.Ok? ==>
              && c.task in s.tasks && s.tasks[c.task].state.Leased?
              && RenewStep(s, c).state ==
                   s.(tasks := s.tasks[c.task := RenewedTask(s.tasks[c.task], c.now + c.duration)],
                                             revision := s.revision + 1)
              && RenewStep(s, c).changes == NoChanges.(tasks := {c.task})
  {}

  lemma RenewRunIs(m: Machine, c: Command)
    requires c.RenewLease? && m.changes == NoChanges
    ensures Refines(RenewRun(m, c), RenewStep(m.state, c))
    ensures RenewStep(m.state, c).reply.Err? ==> RenewRun(m, c).m == m
    ensures RenewStep(m.state, c).reply.Ok? ==>
              && c.task in m.state.tasks && m.state.tasks[c.task].state.Leased?
              && RenewRun(m, c).m == Renewed(m, c.task, RenewedTask(m.state.tasks[c.task], c.now + c.duration))
  {
    RenewStepIs(m.state, c);
    hide RenewStep;
  }

  lemma RenewHazardIs(m: Machine, c: Command)
    requires c.RenewLease? && RenewStep(m.state, c).reply.Ok? && c.task in m.state.tasks
    requires m.state.tasks[c.task].state.Leased?
    ensures
      var task := RenewedTask(m.state.tasks[c.task], c.now + c.duration);
      && SameLease(m.state.tasks[c.task], task) && task.state.Leased?
      && (RenewHazard(m, c) <==> Foreign(m.expirations, task.ns, LeaseKey(c.task, task.state.lease)))
  {}

  lemma RenewRefines(m: Machine, c: Command)
    requires Coherent(m) && m.changes == NoChanges && c.RenewLease?
    ensures Refines(RenewRun(m, c), RenewStep(m.state, c))
    ensures Coherent(RenewRun(m, c).m) <==> !RenewHazard(m, c)
  {
    hide *;
    RenewRunIs(m, c);
    if RenewStep(m.state, c).reply.Ok? {
      RenewHazardIs(m, c);
      var task := RenewedTask(m.state.tasks[c.task], c.now + c.duration);
      if RenewHazard(m, c) {
        RenewDisagrees(m, c.task, task);
      } else {
        RenewAgrees(m, c.task, task);
      }
    } else {
      NoRenewNoHazard(m, c);
    }
  }

  lemma NoRenewNoHazard(m: Machine, c: Command)
    requires c.RenewLease? && RenewStep(m.state, c).reply.Err?
    ensures !RenewHazard(m, c)
  {}

  // ---- Complete ----

  /** `m` after the lease of `t` was completed, giving `task`. */
  function Finished(m: Machine, t: nat, task: Task): Machine
    requires t in m.state.tasks && m.state.tasks[t].state.Leased? && task.state.Completed?
  {
    var l := m.state.tasks[t].state.lease;
    m.(state := m.state.(tasks := m.state.tasks[t := task], revision := m.state.revision + 1),
       active := m.active - {l.leaseId},
       held := RemoveHeld(m.held, (l.group, l.owner), t),
       completed := m.completed + multiset{Key(task.state.done.completedAt, t, 0)},
       changes := NoChanges.(tasks := {t}))
  }

  lemma FinishAgrees(m: Machine, t: nat, task: Task)
    requires Coherent(m) && t in m.state.tasks && m.state.tasks[t].state.Leased?
    requires task.state.Completed? && task.ns == m.state.tasks[t].ns
    ensures Coherent(Finished(m, t, task))
  {
    Parts(m);
    var tasks := m.state.tasks;
    CountsKept(tasks, m.taskCounts, t, task);
    ReadyKept(tasks, m.ready, t, task);
    CompletedPushed(tasks, m.completed, t, task);
    ExpirationsDropped(tasks, m.expirations, {}, t, task);
    assert {} - {t} == {};
    ActiveDropped(tasks, m.active, t, task);
    HeldDropped(tasks, m.held, {}, t, task);
    hide ReadyOk, CompletedOk, EveryLeaseExpires, NoForeignMatch, ActiveOk, HeldOk, TaskCountsOk, GroupCountsOk;
  }

  /** The command completes a lease, as opposed to repeating a retained completion. */
  predicate Completes(s: State, c: Command) {
    c.CompleteTask? && CompleteStep(s, c).reply.Ok? && CompleteStep(s, c).changes.tasks != {}
  }

  function CompletedTask(task: Task, c: Command): Task
    requires task.state.Leased? && c.CompleteTask?
  {
    var l := task.state.lease;
    task.(revision := task.revision + 1,
          state := Completed(Completion(l.leaseId, l.owner, l.group, l.generation, l.epoch, c.result, c.completedAt)))
  }

  lemma CompleteStepIs(s: State, c: Command)
    requires c.CompleteTask?
    ensures !Completes(s, c) ==> CompleteStep(s, c) == Outcome(s, NoChanges, CompleteStep(s, c).reply)
    ensures Completes(s, c) ==>
              && c.task in s.tasks && s.tasks[c.task].state.Leased?
              && CompleteStep(s, c).state ==
                   s.(tasks := s.tasks[c.task := CompletedTask(s.tasks[c.task], c)], revision := s.revision + 1)
              && CompleteStep(s, c).changes == NoChanges.(tasks := {c.task})
  {}

  lemma CompletesItsLease(s: State, c: Command)
    requires Completes(s, c)
    ensures c.task in s.tasks && s.tasks[c.task].state.Leased?
    ensures
      var l := s.tasks[c.task].state.lease;
      l.leaseId == c.lease && l.owner == c.member && l.group == c.group && l.generation == c.expectedGeneration &&
      l.epoch == c.expectedEpoch && l.expiresAt > c.completedAt
  {}

  lemma CompleteRunIs(m: Machine, c: Command)
    requires c.CompleteTask? && m.changes == NoChanges
    ensures Refines(CompleteRun(m, c), CompleteStep(m.state, c))
    ensures !Completes(m.state, c) ==> CompleteRun(m, c).m == m
    ensures Completes(m.state, c) ==>
              && c.task in m.state.tasks && m.state.tasks[c.task].state.Leased?
              && CompleteRun(m, c).m == Finished(m, c.task, CompletedTask(m.state.tasks[c.task], c))
  {
    CompleteStepIs(m.state, c);
    if Completes(m.state, c) {
      CompletesItsLease(m.state, c);
    }
    hide CompleteStep;
  }

  lemma CompleteRefines(m: Machine, c: Command)
    requires Coherent(m) && m.changes == NoChanges && c.CompleteTask?
    ensures Refines(CompleteRun(m, c), CompleteStep(m.state, c)) && Coherent(CompleteRun(m, c).m)
  {
    CompleteRunIs(m, c);
    hide Coherent, CompleteStep, CompleteRun, Finished, Completes;
    if Completes(m.state, c) {
      FinishAgrees(m, c.task, CompletedTask(m.state.tasks[c.task], c));
    }
  }

  // ---- Every command ----

  /** The situations in which a command leaves an index out of agreement: a claim that overflows after
      it has begun to move, or a new deadline whose entry another namespace's heap already holds. */
  ghost predicate Hazard(m: Machine, c: Command) {
    ClaimHazard(m, c) || RenewHazard(m, c)
  }

  lemma UncountedAgrees(m: Machine, c: Command)
    requires Coherent(m) && (c.EnsureNamespace? || c.JoinGroup? || c.Heartbeat? || c.AdvanceTerm?)
    ensures Coherent(TakeOutcome(m, Step(m.state, c)).m)
  {
    Parts(m);
    assert Step(m.state, c).state.tasks == m.state.tasks &&
           GroupCountsOk(Step(m.state, c).state.groups, m.groupCounts) by {
      match c
      case JoinGroup(g, member, capabilities, now, max) =>
        JoinKeepsNamespaces(m.state, m.groupCounts, g, member, capabilities, now, max);
      case Heartbeat(g, member, generation, now) =>
        HeartbeatKeepsNamespaces(m.state, m.groupCounts, g, member, generation, now);
      case _ =>
    }
    hide *;
    StateOnlyAgrees(m, Step(m.state, c));
  }

  lemma HazardIgnoresChanges(m: Machine, changes: Changes, c: Command)
    ensures Hazard(m.(changes := changes), c) <==> Hazard(m, c)
  {}

  /** Refinement and index coherence for every command, from any coherent machine. */
  lemma ExecRefines(m: Machine, c: Command)
    requires Coherent(m)
    ensures Exec(m, c).reply == Step(m.state, c).reply
    ensures !ClaimOverflows(m.state, c) ==> Refines(Exec(m, c), Step(m.state, c))
    ensures Coherent(Exec(m, c).m) <==> !Hazard(m, c)
  {
    hide Coherent, Hazard, ClaimOverflows, RenewStep, ClaimStep, CompleteStep, LeaveStep, ReapStep, PruneStep,
      PublishSpec, EnsureGroupSpec, EnsureNamespaceStep, JoinStep, HeartbeatStep, AdvanceTermStep, PublishRun,
      EnsureGroupRun, LeaveRun, ReapRun, ClaimRun, RenewRun, CompleteRun, PruneRun;
    var m' := m.(changes := NoChanges);
    RestatedAgrees(m, m.state.revision, NoChanges);
    HazardIgnoresChanges(m, NoChanges, c);
    NoHazardUnless(m', c);
    match c
    case PublishTask(_, _, _, _, _) => PublishRefines(m', c);
    case EnsureGroup(_, _, _) => EnsureGroupRefines(m', c);
    case LeaveGroup(_, _, _) => LeaveRefines(m', c);
    case ReapStaleMembers(before, max) => ReapRefines(m', before, max);
    case ClaimTask(_, _, _, _, _, _, _) => ClaimRefines(m', c);
    case RenewLease(_, _, _, _, _, _, _, _, _) => RenewRefines(m', c);
    case CompleteTask(_, _, _, _, _, _, _, _, _) => CompleteRefines(m', c);
    case PruneCompleted(cutoff, max) => PruneRefines(m', cutoff, max);
    case _ => UncountedAgrees(m', c);
  }

  lemma NoHazardUnless(m: Machine, c: Command)
    ensures !c.ClaimTask? && !c.RenewLease? ==> !Hazard(m, c)
    ensures !c.ClaimTask? ==> !ClaimOverflows(m.state, c)
    ensures c.ClaimTask? ==> (Hazard(m, c) <==> ClaimHazard(m, c))
    ensures c.RenewLease? ==> (Hazard(m, c) <==> RenewHazard(m, c))
  {}
}
