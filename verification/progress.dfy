/** What the sweeping loops leave alone, and that terms and revisions never fall, whatever state the
    indexes are in. */
module Progress {
  import opened Order
  import opened Tasks
  import opened Groups
  import opened BrokerState
  import opened BrokerMachine

  predicate NoOlder(a: State, b: State) {
    a.term <= b.term && a.revision <= b.revision
  }

  /** Recovery, departure and pruning loops change nothing authoritative but Tasks. */
  predicate OnlyTasks(a: Machine, b: Machine) {
    b.state == a.state.(tasks := b.state.tasks)
  }

  /** Reaping changes nothing authoritative but Tasks and groups. */
  predicate OnlyTasksAndGroups(a: Machine, b: Machine) {
    b.state == a.state.(tasks := b.state.tasks, groups := b.state.groups)
  }

  lemma {:induction false} RecoveryOnly(m: Machine, ns: nat, ids: set<nat>, now: nat, count: nat)
    ensures OnlyTasks(m, RequeueExpired(m, ns, ids, now, count).m)
    decreases |ids|
  {
    if ids != {} {
      var t := MinId(ids);
      MinIdIn(ids);
      RecoveryOnly(m, ns, ids - {t}, now, count);
      if t in m.state.tasks && m.state.tasks[t].state.Leased? {
        RecoveryOnly(RequeueOne(m, t, ns), ns, ids - {t}, now, count + 1);
      }
    }
  }

  lemma {:induction false} HeldOnly(m: Machine, group: nat, member: nat, ids: set<nat>)
    ensures OnlyTasks(m, RequeueHeld(m, group, member, ids).m)
    decreases |ids|
  {
    if ids != {} {
      var t := MinId(ids);
      MinIdIn(ids);
      HeldOnly(m, group, member, ids - {t});
      if t in m.state.tasks && m.state.tasks[t].state.Leased? {
        HeldOnly(RequeueOne(m, t, m.state.tasks[t].ns), group, member, ids - {t});
      }
    }
  }

  lemma {:induction false} RemovedOnly(m: Machine, group: nat, removed: set<Key>)
    ensures OnlyTasks(m, RequeueRemoved(m, group, removed).m)
    decreases |removed|
  {
    if removed != {} {
      var k := MinKey(removed);
      var key := (group, k.id);
      HeldOnly(m.(held := m.held - {key}), group, k.id, LeasesOf(m.held, key));
      hide RequeueHeld;
      var swept := RequeueMember(m, group, k.id);
      RemovedOnly(swept.m, group, removed - {k});
    }
  }

  lemma {:induction false} ReapOnly(
    m: Machine, selected: set<Key>, groups: set<nat>, before: nat, count: nat, affected: set<nat>)
    ensures OnlyTasksAndGroups(m, ReapGroups(m, selected, groups, before, count, affected).m)
    decreases |groups|
  {
    hide ReapTurn;
    if groups != {} {
      var g := MinId(groups);
      MinIdIn(groups);
      TurnOnly(m, selected, g, before);
      var turn := ReapTurn(m, selected, g, before);
      ReapOnly(turn.m, selected, groups - {g}, before, count + |turn.removed|,
                   if turn.removed == {} then affected else affected + {g});
    }
  }

  lemma TurnOnly(m: Machine, selected: set<Key>, g: nat, before: nat)
    ensures OnlyTasksAndGroups(m, ReapTurn(m, selected, g, before).m)
  {
    hide RequeueRemoved;
    if g in m.state.groups {
      var reaped := ReapGroup(m.state.groups[g], before, |KeysOf(selected, g)|);
      if reaped.Ok? {
        RemovedOnly(m.(state := m.state.(groups := m.state.groups[g := reaped.value.0])), g, reaped.value.1);
      }
    }
  }

  /** `m` after its least completed entry was popped and, if that still names a completion, deleted. */
  function Disposed(m: Machine, k: Key): Machine {
    var popped := m.(completed := m.completed - multiset{k});
    if !CompletedMatch(m.state.tasks, k) || m.state.tasks[k.id].ns !in m.taskCounts then popped
    else
      var ns := m.state.tasks[k.id].ns;
      var c := m.taskCounts[ns];
      popped.(state := m.state.(tasks := m.state.tasks - {k.id}),
              taskCounts := m.taskCounts[ns := if c > 0 then c - 1 else 0],
              changes := m.changes.(deleted := m.changes.deleted + {k.id}))
  }

  /** The deleting loop stops, or deletes the least entry it has no count for and stops, or goes on from
      the machine without its least entry. */
  lemma DestroyUnfolds(m: Machine, left: nat, cutoff: nat, count: nat)
    ensures left == 0 || m.completed == multiset{} || MinKey(Support(m.completed)).at > cutoff ==>
              Destroy(m, left, cutoff, count).m == m
    ensures left > 0 && m.completed != multiset{} && MinKey(Support(m.completed)).at <= cutoff ==>
              var k := MinKey(Support(m.completed));
              var popped := m.(completed := m.completed - multiset{k});
              var r := Destroy(m, left, cutoff, count);
              && |Disposed(m, k).completed| < |m.completed|
              && (if !CompletedMatch(m.state.tasks, k) then r == Destroy(Disposed(m, k), left, cutoff, count)
                  else if m.state.tasks[k.id].ns in m.taskCounts then
                    r == Destroy(Disposed(m, k), left - 1, cutoff, count + 1)
                  else r.m == popped.(state := m.state.(tasks := m.state.tasks - {k.id})))
  {
    if m.completed != multiset{} {
      assert MinKey(Support(m.completed)) in m.completed;
    }
  }

  lemma {:induction false} DestroyOnly(m: Machine, left: nat, cutoff: nat, count: nat)
    ensures
      var m' := Destroy(m, left, cutoff, count).m;
      && OnlyTasks(m, m')
      && m'.active == m.active && m'.held == m.held && m'.expirations == m.expirations && m'.ready == m.ready
    decreases |m.completed|
  {
    hide Destroy;
    DestroyUnfolds(m, left, cutoff, count);
    if left > 0 && m.completed != multiset{} && MinKey(Support(m.completed)).at <= cutoff {
      var k := MinKey(Support(m.completed));
      if !CompletedMatch(m.state.tasks, k) {
        DestroyOnly(Disposed(m, k), left, cutoff, count);
      } else if m.state.tasks[k.id].ns in m.taskCounts {
        DestroyOnly(Disposed(m, k), left - 1, cutoff, count + 1);
      }
    }
  }

  lemma FreshNoOlder(m: Machine, c: Command, ns: nat)
    requires c.ClaimTask?
    ensures NoOlder(m.state, ClaimFresh(m, c, ns).m.state)
  {
    hide RequeueExpired, PopReady, Drain, Due;
    if ns in m.expirations {
      RecoveryOnly(m.(expirations := m.expirations[ns := Drain(m.expirations[ns], c.now)]), ns,
                       Due(m.expirations[ns], m.state.tasks, c.now), c.now, 0);
    }
  }

  lemma ClaimNoOlder(m: Machine, c: Command)
    requires c.ClaimTask?
    ensures NoOlder(m.state, ClaimRun(m, c).m.state)
  {
    hide ClaimFresh;
    if c.group in m.state.groups {
      FreshNoOlder(m, c, m.state.groups[c.group].ns);
    }
  }

  lemma LeaveNoOlder(m: Machine, c: Command)
    requires c.LeaveGroup?
    ensures NoOlder(m.state, LeaveRun(m, c).m.state)
  {
    hide RequeueHeld, Preflight;
    if c.group in m.state.groups {
      var left := Groups.LeaveGroup(m.state.groups[c.group], c.member, c.expectedGeneration);
      if left.Ok? {
        var key := (c.group, c.member);
        var gone := m.(state := m.state.(groups := m.state.groups[c.group := left.value]));
        HeldOnly(gone.(held := gone.held - {key}), c.group, c.member, LeasesOf(gone.held, key));
      }
    }
  }

  lemma ReapNoOlder(m: Machine, before: nat, max: nat)
    ensures NoOlder(m.state, ReapRun(m, before, max).m.state)
  {
    hide ReapGroups, FirstN, StaleKeys, Preflight, CanAdvance, AffectedGroups;
    var selected := FirstN(StaleKeys(m.state.groups, before), max);
    ReapOnly(m, selected, AffectedGroups(selected), before, 0, {});
  }

  lemma PruneNoOlder(m: Machine, cutoff: nat, max: nat)
    ensures NoOlder(m.state, PruneRun(m, cutoff, max).m.state)
  {
    hide Probe, Underflows, Destroy;
    DestroyOnly(m, |Probe(m.completed, m.state.tasks, cutoff, max)|, cutoff, 0);
  }

  lemma RenewNoOlder(m: Machine, c: Command)
    requires c.RenewLease?
    ensures NoOlder(m.state, RenewRun(m, c).m.state)
  {
    hide Admit, RenewTask, Push;
  }

  lemma CompleteNoOlder(m: Machine, c: Command)
    requires c.CompleteTask?
    ensures NoOlder(m.state, CompleteRun(m, c).m.state)
  {
    hide Admit, Tasks.CompleteTask, RemoveHeld;
  }

  lemma PublishStepAdds(s: State, ns: nat, task: nat, objective: nat, createdAt: nat, max: nat, count: nat)
    ensures
      var s' := PublishStep(s, ns, task, objective, createdAt, max, count).state;
      || s' == s
      || (&& ns in s.namespaces && task !in s.tasks
          && s' == s.(tasks := s.tasks[task := NewTask(ns, objective, createdAt)], revision := s.revision + 1))
  {}

  lemma EnsureGroupStepAdds(s: State, ns: nat, group: nat, max: nat, count: nat)
    ensures
      var s' := EnsureGroupStep(s, ns, group, max, count).state;
      || s' == s
      || (&& ns in s.namespaces && group !in s.groups
          && s' == s.(groups := s.groups[group := NewGroup(ns)], revision := s.revision + 1))
  {}

  /** A publication adds one queued Task in a known namespace, or nothing; leases stay where they are. */
  lemma PublishAdds(m: Machine, c: Command)
    requires c.PublishTask?
    ensures
      var s, m' := m.state, PublishRun(m, c).m;
      && m'.active == m.active && m'.held == m.held
      && (|| m'.state == s
          || (&& c.ns in s.namespaces && c.task !in s.tasks
              && m'.state == s.(tasks := s.tasks[c.task := NewTask(c.ns, c.objective, c.createdAt)],
                                revision := s.revision + 1)))
  {
    hide PublishStep, CountAt, Push;
    PublishStepAdds(m.state, c.ns, c.task, c.objective, c.createdAt, c.maxTasks, CountAt(m.taskCounts, c.ns));
  }

  /** Ensuring a group adds one in a known namespace, or nothing. */
  lemma EnsureGroupAdds(m: Machine, c: Command)
    requires c.EnsureGroup?
    ensures
      var s, m' := m.state, EnsureGroupRun(m, c).m;
      && m'.active == m.active && m'.held == m.held
      && (|| m'.state == s
          || (&& c.ns in s.namespaces && c.group !in s.groups
              && m'.state == s.(groups := s.groups[c.group := NewGroup(c.ns)], revision := s.revision + 1)))
  {
    hide EnsureGroupStep, CountAt, NewGroup;
    EnsureGroupStepAdds(m.state, c.ns, c.group, c.maxGroups, CountAt(m.groupCounts, c.ns));
  }

  lemma UncountedNoOlder(s: State, c: Command)
    requires c.EnsureNamespace? || c.JoinGroup? || c.Heartbeat? || c.AdvanceTerm?
    ensures NoOlder(s, Step(s, c).state)
  {
    hide Groups.JoinGroup, HeartbeatGroup, PublishSpec, EnsureGroupSpec, ClaimStep, RenewStep, CompleteStep, LeaveStep,
      ReapStep, PruneStep;
  }

  lemma AddsNoOlder(s: State, s': State)
    requires s'.term == s.term && (s'.revision == s.revision || s'.revision == s.revision + 1)
    ensures NoOlder(s, s')
  {}

  /** No command, not even one that fails half way over damaged indexes, sets the term or the revision
      back. */
  lemma ExecNoOlder(m: Machine, c: Command)
    ensures NoOlder(m.state, Exec(m, c).m.state)
  {
    hide NoOlder, ClaimRun, LeaveRun, ReapRun, PruneRun, PublishRun, EnsureGroupRun, RenewRun, CompleteRun,
      EnsureNamespaceStep, JoinStep, HeartbeatStep, AdvanceTermStep;
    var m' := m.(changes := NoChanges);
    match c
    case ClaimTask(_, _, _, _, _, _, _) => ClaimNoOlder(m', c);
    case LeaveGroup(_, _, _) => LeaveNoOlder(m', c);
    case ReapStaleMembers(before, max) => ReapNoOlder(m', before, max);
    case PruneCompleted(cutoff, max) => PruneNoOlder(m', cutoff, max);
    case PublishTask(_, _, _, _, _) => PublishAdds(m', c); AddsNoOlder(m.state, Exec(m, c).m.state);
    case RenewLease(_, _, _, _, _, _, _, _, _) => RenewNoOlder(m', c);
    case CompleteTask(_, _, _, _, _, _, _, _, _) => CompleteNoOlder(m', c);
    case EnsureGroup(_, _, _) => EnsureGroupAdds(m', c); AddsNoOlder(m.state, Exec(m, c).m.state);
    case _ => UncountedNoOlder(m.state, c);
  }
}
