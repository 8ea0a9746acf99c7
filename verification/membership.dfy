/** Consumer Group laws over every command: generations follow membership, revisions follow change,
    heartbeats never go back, and limits hold when something is created. */
module Membership {
  import opened Order
  import opened Groups
  import opened BrokerState
  import opened BrokerMachine
  import opened Progress
  import opened Runs

  /** The member is the same consumer, seen at least as recently. */
  predicate SameConsumer(a: Consumer, b: Consumer) {
    b.capabilities == a.capabilities && b.joinedAt == a.joinedAt &&
    a.heartbeatAt <= b.heartbeatAt && a.revision <= b.revision
  }

  /** What one command may do to one group: the generation counts changes of membership, the revision
      counts changes of any kind, and whoever stays is unchanged but for a newer heartbeat. */
  ghost predicate GroupLaw(a: Group, b: Group) {
    && b.ns == a.ns
    && b.generation == a.generation + (if b.consumers.Keys == a.consumers.Keys then 0 else 1)
    && b.revision == a.revision + (if b == a then 0 else 1)
    && forall w | w in a.consumers && w in b.consumers :: SameConsumer(a.consumers[w], b.consumers[w])
  }

  /** The group with one member heard of at `now`: its heartbeat is the later of the two, a revision counts
      every newer one, and nobody else is touched. */
  ghost predicate Heard(a: Group, b: Group, member: nat, now: nat) {
    && member in a.consumers && b.consumers.Keys == a.consumers.Keys
    && b.ns == a.ns && b.generation == a.generation
    && (forall w :: w in a.consumers && w != member ==> b.consumers[w] == a.consumers[w])
    && var x, y := a.consumers[member], b.consumers[member];
       && y.capabilities == x.capabilities && y.joinedAt == x.joinedAt
       && if x.heartbeatAt < now then
            y.heartbeatAt == now && y.revision == x.revision + 1 && b.revision == a.revision + 1
          else
            y.heartbeatAt == x.heartbeatAt && y.revision == x.revision && b.revision == a.revision
  }

  /** The group with one more member, who joined and was heard of at `now`. */
  ghost predicate Joined(a: Group, b: Group, member: nat, capabilities: set<nat>, now: nat) {
    && member !in a.consumers && b.consumers.Keys == a.consumers.Keys + {member}
    && b.ns == a.ns && b.generation == a.generation + 1 && b.revision == a.revision + 1
    && (forall w :: w in a.consumers ==> b.consumers[w] == a.consumers[w])
    && var y := b.consumers[member];
       y.capabilities == capabilities && y.joinedAt == now && y.heartbeatAt == now && y.revision == 1
  }

  /** Another heartbeat of the member can still be counted. */
  predicate Countable(g: Group, member: nat, now: nat)
    requires member in g.consumers
  {
    g.consumers[member].heartbeatAt < now ==> g.consumers[member].revision < U64_MAX && g.revision < U64_MAX
  }

  /** A join is accepted exactly from a member that repeats its capabilities, or from a new one while there
      is room, as long as the counters last; either way it is heard of. */
  lemma JoinLaw(g: Group, member: nat, capabilities: set<nat>, now: nat, max: nat)
    ensures
      var r := Groups.JoinGroup(g, member, capabilities, now, max);
      && (r.Ok? <==>
            if member in g.consumers then g.consumers[member].capabilities == capabilities && Countable(g, member, now)
            else |g.consumers| < max && g.generation < U64_MAX && g.revision < U64_MAX)
      && (r.Ok? ==>
            && GroupLaw(g, r.value.0) && member in r.value.0.consumers
            && r.value.0.consumers[member].capabilities == capabilities
            && (if member in g.consumers then Heard(g, r.value.0, member, now)
                else Joined(g, r.value.0, member, capabilities, now))
            && (r.value.1.Unchanged? <==> r.value.0 == g)
            && (r.value.0.consumers.Keys != g.consumers.Keys ==> |r.value.0.consumers| <= max))
  {}

  /** A heartbeat is accepted exactly from a member that names the generation, as long as the counters last. */
  lemma HeartbeatLaw(g: Group, member: nat, generation: nat, now: nat)
    ensures
      var r := HeartbeatGroup(g, member, generation, now);
      && (r.Ok? <==> g.generation == generation && member in g.consumers && Countable(g, member, now))
      && (r.Ok? ==>
            && GroupLaw(g, r.value.0) && r.value.0.consumers.Keys == g.consumers.Keys
            && Heard(g, r.value.0, member, now) && (r.value.1 <==> r.value.0 != g))
  {}

  lemma WithoutLaw(g: Group, members: set<nat>)
    requires members * g.consumers.Keys != {}
    ensures GroupLaw(g, Without(g, members)) && Without(g, members).consumers.Keys == g.consumers.Keys - members
  {}

  lemma SelectedAreMembers(groups: map<nat, Group>, before: nat, max: nat, g: nat)
    requires g in AffectedGroups(FirstN(StaleKeys(groups, before), max)) && g in groups
    ensures MembersOf(FirstN(StaleKeys(groups, before), max), g) * groups[g].consumers.Keys != {}
  {
    var selected := FirstN(StaleKeys(groups, before), max);
    hide FirstN;
    var k :| k in selected && k.id == g;
    assert k in StaleKeys(groups, before);
    assert k.tag in MembersOf(selected, g) * groups[g].consumers.Keys;
  }

  lemma ReapLaw(s: State, before: nat, max: nat, g: nat)
    requires g in s.groups
    ensures g in ReapStep(s, before, max).state.groups
    ensures GroupLaw(s.groups[g], ReapStep(s, before, max).state.groups[g])
  {
    hide FirstN, StaleKeys, HeldByAny, RequeueAll, GroupLaw, MembersOf, AffectedGroups;
    UnchangedLaw(s.groups[g]);
    var selected := FirstN(StaleKeys(s.groups, before), max);
    if g in AffectedGroups(selected) {
      SelectedAreMembers(s.groups, before, max, g);
      WithoutLaw(s.groups[g], MembersOf(selected, g));
    }
  }

  lemma LeaveLaw(s: State, group: nat, member: nat, generation: nat, g: nat)
    requires g in s.groups
    ensures
      var s' := LeaveStep(s, group, member, generation).state;
      g in s'.groups && GroupLaw(s.groups[g], s'.groups[g])
  {}

  lemma UnchangedLaw(g: Group)
    ensures GroupLaw(g, g)
  {}

  lemma StepGroupLaw(s: State, c: Command, g: nat)
    requires g in s.groups
    ensures g in Step(s, c).state.groups && GroupLaw(s.groups[g], Step(s, c).state.groups[g])
  {
    hide GroupLaw, LeaveStep, ReapStep, ClaimStep, RenewStep, CompleteStep, PruneStep, InNamespace, GroupsInNamespace;
    UnchangedLaw(s.groups[g]);
    match c
    case JoinGroup(group, member, capabilities, now, max) =>
      if group in s.groups { JoinLaw(s.groups[group], member, capabilities, now, max); }
    case Heartbeat(group, member, generation, now) =>
      if group in s.groups { HeartbeatLaw(s.groups[group], member, generation, now); }
    case LeaveGroup(group, member, generation) => LeaveLaw(s, group, member, generation, g);
    case ReapStaleMembers(before, max) => ReapLaw(s, before, max, g);
    case ClaimTask(_, _, _, _, _, _, _) => ClaimKeepsGroups(s, c);
    case RenewLease(_, _, _, _, _, _, _, _, _) => RenewKeepsGroups(s, c);
    case CompleteTask(_, _, _, _, _, _, _, _, _) => CompleteKeepsGroups(s, c);
    case PruneCompleted(cutoff, max) => PruneKeepsGroups(s, cutoff, max);
    case EnsureNamespace(_, _) =>
    case PublishTask(_, _, _, _, _) =>
    case EnsureGroup(_, _, _) =>
    case AdvanceTerm(_, _) =>
  }

  lemma ClaimKeepsGroups(s: State, c: Command)
    requires c.ClaimTask?
    ensures ClaimStep(s, c).state.groups == s.groups
  {}

  lemma RenewKeepsGroups(s: State, c: Command)
    requires c.RenewLease?
    ensures RenewStep(s, c).state.groups == s.groups
  {}

  lemma CompleteKeepsGroups(s: State, c: Command)
    requires c.CompleteTask?
    ensures CompleteStep(s, c).state.groups == s.groups
  {}

  lemma PruneKeepsGroups(s: State, cutoff: nat, max: nat)
    ensures PruneStep(s, cutoff, max).state.groups == s.groups
  {}

  // ---- The machine, whatever state its indexes are in ----

  lemma ReapGroupLaw(g: Group, before: nat, max: nat)
    ensures
      var r := ReapGroup(g, before, max);
      r.Ok? ==> GroupLaw(g, r.value.0)
  {
    hide GroupLaw, FirstN;
    UnchangedLaw(g);
    var stale := FirstN(StaleIn(g, before), max);
    if max > 0 && stale != {} {
      var k :| k in stale;
      assert k in StaleIn(g, before) && k.id in Members(stale) * g.consumers.Keys;
      WithoutLaw(g, Members(stale));
    }
  }

  lemma TurnLaw(m: Machine, selected: set<Key>, g: nat, before: nat, h: nat)
    requires h in m.state.groups
    ensures
      var groups := ReapTurn(m, selected, g, before).m.state.groups;
      h in groups && GroupLaw(m.state.groups[h], groups[h]) && (h != g ==> groups[h] == m.state.groups[h])
  {
    hide GroupLaw, ReapGroup, RequeueRemoved;
    UnchangedLaw(m.state.groups[h]);
    if g in m.state.groups {
      var size := |KeysOf(selected, g)|;
      ReapGroupLaw(m.state.groups[g], before, size);
      var r := ReapGroup(m.state.groups[g], before, size);
      if r.Ok? {
        RemovedOnly(m.(state := m.state.(groups := m.state.groups[g := r.value.0])), g, r.value.1);
      }
    }
  }

  lemma {:induction false} ReapGroupsLaw(
    m: Machine, selected: set<Key>, ids: set<nat>, before: nat, count: nat, affected: set<nat>, h: nat)
    requires h in m.state.groups
    ensures
      var groups := ReapGroups(m, selected, ids, before, count, affected).m.state.groups;
      h in groups && GroupLaw(m.state.groups[h], groups[h]) && (h !in ids ==> groups[h] == m.state.groups[h])
    decreases |ids|
  {
    hide GroupLaw, ReapTurn;
    UnchangedLaw(m.state.groups[h]);
    if ids != {} {
      var g := MinId(ids);
      MinIdIn(ids);
      TurnLaw(m, selected, g, before, h);
      var turn := ReapTurn(m, selected, g, before);
      ReapGroupsLaw(turn.m, selected, ids - {g}, before, count + |turn.removed|,
                    if turn.removed == {} then affected else affected + {g}, h);
    }
  }

  lemma ReapRunLaw(m: Machine, before: nat, max: nat, g: nat)
    requires g in m.state.groups
    ensures g in ReapRun(m, before, max).m.state.groups
    ensures GroupLaw(m.state.groups[g], ReapRun(m, before, max).m.state.groups[g])
  {
    hide GroupLaw, ReapGroups, FirstN, StaleKeys, Preflight, CanAdvance, AffectedGroups;
    UnchangedLaw(m.state.groups[g]);
    var selected := FirstN(StaleKeys(m.state.groups, before), max);
    ReapGroupsLaw(m, selected, AffectedGroups(selected), before, 0, {}, g);
  }

  lemma LeaveGroupLaw(g: Group, member: nat, generation: nat)
    ensures Groups.LeaveGroup(g, member, generation).Ok? ==> GroupLaw(g, Groups.LeaveGroup(g, member, generation).value)
  {}

  lemma LeaveRunLaw(m: Machine, c: Command, g: nat)
    requires c.LeaveGroup? && g in m.state.groups
    ensures g in LeaveRun(m, c).m.state.groups && GroupLaw(m.state.groups[g], LeaveRun(m, c).m.state.groups[g])
  {
    hide GroupLaw, RequeueHeld, Preflight, Groups.LeaveGroup;
    UnchangedLaw(m.state.groups[g]);
    if c.group in m.state.groups {
      LeaveGroupLaw(m.state.groups[c.group], c.member, c.expectedGeneration);
      var left := Groups.LeaveGroup(m.state.groups[c.group], c.member, c.expectedGeneration);
      if left.Ok? {
        var key := (c.group, c.member);
        var gone := m.(state := m.state.(groups := m.state.groups[c.group := left.value]));
        HeldOnly(gone.(held := gone.held - {key}), c.group, c.member, LeasesOf(gone.held, key));
      }
    }
  }

  lemma FreshKeepsGroups(m: Machine, c: Command, ns: nat)
    requires c.ClaimTask?
    ensures ClaimFresh(m, c, ns).m.state.groups == m.state.groups
  {
    hide RequeueExpired, PopReady, Drain, Due, Push, AddHeld, ClaimReplyOf;
    if ns in m.expirations {
      RecoveryOnly(m.(expirations := m.expirations[ns := Drain(m.expirations[ns], c.now)]), ns,
                   Due(m.expirations[ns], m.state.tasks, c.now), c.now, 0);
    }
  }

  lemma ClaimRunKeepsGroups(m: Machine, c: Command)
    requires c.ClaimTask?
    ensures ClaimRun(m, c).m.state.groups == m.state.groups
  {
    hide ClaimFresh;
    if c.group in m.state.groups {
      FreshKeepsGroups(m, c, m.state.groups[c.group].ns);
    }
  }

  lemma PruneRunKeepsGroups(m: Machine, cutoff: nat, max: nat)
    ensures PruneRun(m, cutoff, max).m.state.groups == m.state.groups
  {
    hide Probe, Underflows, Destroy;
    DestroyOnly(m, |Probe(m.completed, m.state.tasks, cutoff, max)|, cutoff, 0);
  }

  lemma RenewRunKeepsGroups(m: Machine, c: Command)
    requires c.RenewLease?
    ensures RenewRun(m, c).m.state.groups == m.state.groups
  {
    hide RenewStep;
    RenewKeepsGroups(m.state, c);
  }

  lemma CompleteRunKeepsGroups(m: Machine, c: Command)
    requires c.CompleteTask?
    ensures CompleteRun(m, c).m.state.groups == m.state.groups
  {
    hide CompleteStep;
    CompleteKeepsGroups(m.state, c);
  }

  /** The law of groups holds of the machine itself, agreeing indexes or not. */
  lemma ExecGroupLaw(m: Machine, c: Command, g: nat)
    requires g in m.state.groups
    ensures g in Exec(m, c).m.state.groups && GroupLaw(m.state.groups[g], Exec(m, c).m.state.groups[g])
  {
    hide GroupLaw, ClaimRun, LeaveRun, ReapRun, PruneRun, PublishRun, EnsureGroupRun, RenewRun, CompleteRun, JoinStep,
      HeartbeatStep, EnsureNamespaceStep, AdvanceTermStep;
    UnchangedLaw(m.state.groups[g]);
    var m' := m.(changes := NoChanges);
    match c
    case ClaimTask(_, _, _, _, _, _, _) => ClaimRunKeepsGroups(m', c);
    case LeaveGroup(_, _, _) => LeaveRunLaw(m', c, g);
    case ReapStaleMembers(before, max) => ReapRunLaw(m', before, max, g);
    case PruneCompleted(cutoff, max) => PruneRunKeepsGroups(m', cutoff, max);
    case PublishTask(_, _, _, _, _) => PublishAdds(m', c);
    case RenewLease(_, _, _, _, _, _, _, _, _) => RenewRunKeepsGroups(m', c);
    case CompleteTask(_, _, _, _, _, _, _, _, _) => CompleteRunKeepsGroups(m', c);
    case EnsureGroup(_, _, _) => EnsureGroupAdds(m', c);
    case EnsureNamespace(_, _) => StepGroupLaw(m.state, c, g);
    case JoinGroup(_, _, _, _, _) => StepGroupLaw(m.state, c, g);
    case Heartbeat(_, _, _, _) => StepGroupLaw(m.state, c, g);
    case AdvanceTerm(_, _) => StepGroupLaw(m.state, c, g);
  }

  // ---- Whole runs of the machine ----

  /** How often the membership of a group changed over a run. */
  function ChangesOf(m: Machine, log: seq<Command>, g: nat): nat
    decreases |log|
  {
    if log == [] then 0
    else (if MembershipChanges(m, log[0], g) then 1 else 0) + ChangesOf(Exec(m, log[0]).m, log[1..], g)
  }

  predicate MembershipChanges(m: Machine, c: Command, g: nat) {
    var s, s' := m.state, Exec(m, c).m.state;
    g in s.groups && g in s'.groups && s'.groups[g].consumers.Keys != s.groups[g].consumers.Keys
  }

  /** Over every run of any machine, the generation of a group rises by the number of times its membership
      changed: a client that still holds the current generation has missed no change. */
  lemma {:induction false} GenerationCountsChanges(m: Machine, log: seq<Command>, g: nat)
    requires g in m.state.groups
    ensures g in After(m, log).state.groups
    ensures After(m, log).state.groups[g].generation == m.state.groups[g].generation + ChangesOf(m, log, g)
    decreases |log|
  {
    hide Exec;
    if log != [] {
      ExecGroupLaw(m, log[0], g);
      GenerationCountsChanges(Exec(m, log[0]).m, log[1..], g);
    }
  }

  /** A publication that adds a Task leaves its namespace within the limit it carries. */
  lemma PublishLimit(s: State, c: Command)
    requires c.PublishTask? && PublishSpec(s, c).reply.Ok? && c.task !in s.tasks
    ensures |InNamespace(PublishSpec(s, c).state.tasks, c.ns)| <= c.maxTasks
  {
    var s' := PublishSpec(s, c).state;
    assert InNamespace(s'.tasks, c.ns) == InNamespace(s.tasks, c.ns) + {c.task};
  }

  /** So does the creation of a group. */
  lemma EnsureGroupLimit(s: State, c: Command)
    requires c.EnsureGroup? && EnsureGroupSpec(s, c).reply.Ok? && c.group !in s.groups
    ensures |GroupsInNamespace(EnsureGroupSpec(s, c).state.groups, c.ns)| <= c.maxGroups
  {
    var s' := EnsureGroupSpec(s, c).state;
    assert GroupsInNamespace(s'.groups, c.ns) == GroupsInNamespace(s.groups, c.ns) + {c.group};
  }
}
