/** How each command changes the lease-expiration heaps.

    These heaps are the one index that is not a function of the authoritative state: entries of
    renewed, completed, requeued or pruned leases linger until a claim drains them. */
module Entries {
  import opened Order
  import opened Tasks
  import opened Groups
  import opened BrokerState
  import opened BrokerMachine
  import opened Progress
  import opened Coherence
  import opened ClaimRefinement
  import opened Refinement

  // ---- Leave, reap and prune never touch them ----

  lemma {:induction false} RequeueHeldKeeps(m: Machine, group: nat, member: nat, ids: set<nat>)
    ensures RequeueHeld(m, group, member, ids).m.expirations == m.expirations
    decreases |ids|
  {
    if ids != {} {
      var t := MinId(ids);
      if t !in m.state.tasks || !HeldBy(m.state.tasks[t], group, member) {
        RequeueHeldKeeps(m, group, member, ids - {t});
      } else if m.state.tasks[t].revision < U64_MAX {
        RequeueHeldKeeps(RequeueOne(m, t, m.state.tasks[t].ns), group, member, ids - {t});
      }
    }
  }

  lemma RequeueMemberKeeps(m: Machine, group: nat, member: nat)
    ensures RequeueMember(m, group, member).m.expirations == m.expirations
  {
    RequeueHeldKeeps(m.(held := m.held - {(group, member)}), group, member, LeasesOf(m.held, (group, member)));
  }

  lemma {:induction false} RequeueRemovedKeeps(m: Machine, group: nat, removed: set<Key>)
    ensures RequeueRemoved(m, group, removed).m.expirations == m.expirations
    decreases |removed|
  {
    hide RequeueMember;
    if removed != {} {
      var k := MinKey(removed);
      RequeueMemberKeeps(m, group, k.id);
      RequeueRemovedKeeps(RequeueMember(m, group, k.id).m, group, removed - {k});
    }
  }

  lemma ReapTurnKeeps(m: Machine, selected: set<Key>, g: nat, before: nat)
    ensures ReapTurn(m, selected, g, before).m.expirations == m.expirations
  {
    hide RequeueRemoved, ReapGroup;
    if g in m.state.groups {
      var r := ReapGroup(m.state.groups[g], before, |KeysOf(selected, g)|);
      if r.Ok? {
        RequeueRemovedKeeps(m.(state := m.state.(groups := m.state.groups[g := r.value.0])), g, r.value.1);
      }
    }
  }

  lemma {:induction false} ReapGroupsKeeps(
    m: Machine, selected: set<Key>, groups: set<nat>, before: nat, count: nat, affected: set<nat>)
    ensures ReapGroups(m, selected, groups, before, count, affected).m.expirations == m.expirations
    decreases |groups|
  {
    hide ReapTurn;
    if groups != {} {
      var g := MinId(groups);
      ReapTurnKeeps(m, selected, g, before);
      var turn := ReapTurn(m, selected, g, before);
      ReapGroupsKeeps(turn.m, selected, groups - {g}, before, count + |turn.removed|,
                      if turn.removed == {} then affected else affected + {g});
    }
  }

  lemma LeaveKeeps(m: Machine, c: Command)
    requires c.LeaveGroup?
    ensures LeaveRun(m, c).m.expirations == m.expirations
  {
    hide RequeueMember, Preflight, Groups.LeaveGroup;
    if c.group in m.state.groups {
      var r := Groups.LeaveGroup(m.state.groups[c.group], c.member, c.expectedGeneration);
      if r.Ok? {
        RequeueMemberKeeps(m.(state := m.state.(groups := m.state.groups[c.group := r.value])), c.group, c.member);
      }
    }
  }

  lemma ReapKeeps(m: Machine, before: nat, max: nat)
    ensures ReapRun(m, before, max).m.expirations == m.expirations
  {
    hide ReapGroups, FirstN, StaleKeys, Preflight, CanAdvance;
    var selected := FirstN(StaleKeys(m.state.groups, before), max);
    ReapGroupsKeeps(m, selected, AffectedGroups(selected), before, 0, {});
  }

  lemma PruneKeeps(m: Machine, cutoff: nat, max: nat)
    ensures PruneRun(m, cutoff, max).m.expirations == m.expirations
  {
    hide Destroy, Probe, Underflows;
    DestroyOnly(m, |Probe(m.completed, m.state.tasks, cutoff, max)|, cutoff, 0);
  }

  // ---- Claim drains and pushes, renew pushes ----

  function DrainAt(expirations: map<nat, multiset<Key>>, ns: nat, now: nat): map<nat, multiset<Key>> {
    if ns in expirations then expirations[ns := Drain(expirations[ns], now)] else expirations
  }

  function RenewKey(s: State, c: Command): Key
    requires c.RenewLease? && c.task in s.tasks
  {
    Key(c.now + c.duration, c.task, Epoch(s.tasks[c.task]))
  }

  predicate Renews(s: State, c: Command) {
    c.RenewLease? && c.task in s.tasks && RenewStep(s, c).reply.Ok?
  }

  /** The heaps after a command that does not overflow. */
  function NextEntries(expirations: map<nat, multiset<Key>>, s: State, c: Command): map<nat, multiset<Key>> {
    if Renews(s, c) then Push(expirations, s.tasks[c.task].ns, RenewKey(s, c))
    else if !FreshClaim(s, c) then expirations
    else
      var drained := DrainAt(expirations, ClaimNamespace(s, c), c.now);
      if Grants(s, c) then Push(drained, ClaimNamespace(s, c), GrantKey(s, c)) else drained
  }

  lemma RenewEntries(m: Machine, c: Command)
    requires c.RenewLease? && m.changes == NoChanges
    ensures RenewRun(m, c).m.expirations == NextEntries(m.expirations, m.state, c)
  {
    RenewStepIs(m.state, c);
    RenewRunIs(m, c);
    hide RenewStep, RenewRun, FreshClaim;
    assert !FreshClaim(m.state, c) by { NotAClaim(m.state, c); }
  }

  lemma NotAClaim(s: State, c: Command)
    requires !c.ClaimTask?
    ensures !FreshClaim(s, c)
  {}

  lemma FreshFindsNothing(m: Machine, c: Command, ns: nat, rec: Swept)
    requires c.ClaimTask? && rec == RecoverExpired(m, ns, c.now) && rec.failed.None?
    requires PopReady(HeapAt(rec.m.ready, ns), rec.m.state.tasks).1.None?
    ensures ClaimFresh(m, c, ns).m.expirations == rec.m.expirations
  {
    hide RecoverExpired, PopReady, HeapAt, GrantLease;
  }

  lemma ClaimNothingEntries(m: Machine, c: Command)
    requires Coherent(m) && FreshClaim(m.state, c)
    requires CanRequeue(m.state.tasks, ClaimExpired(m.state, c)) && ClaimReady(m.state, c) == {}
    ensures ClaimFresh(m, c, ClaimNamespace(m.state, c)).m.expirations ==
              DrainAt(m.expirations, ClaimNamespace(m.state, c), c.now)
  {
    hide Coherent, Agrees, RequeueAll, QueuedKeys, ExpiredTasks, CanRequeue, RecoverExpired, PopReady, ClaimFresh,
      HeapAt, Admit, LeaseHolders;
    var ns := ClaimNamespace(m.state, c);
    RecoverResult(m, ns, c.now);
    RecoverAgrees(m, ns, c.now);
    Parts(RecoverExpired(m, ns, c.now).m);
    PopReadyIsLeast(RecoverExpired(m, ns, c.now).m, ns);
    FreshFindsNothing(m, c, ns, RecoverExpired(m, ns, c.now));
  }

  lemma ClaimGrantEntries(m: Machine, c: Command)
    requires Coherent(m) && m.changes == NoChanges && Grants(m.state, c)
    ensures ClaimFresh(m, c, ClaimNamespace(m.state, c)).m.expirations ==
              Push(DrainAt(m.expirations, ClaimNamespace(m.state, c), c.now),
                   ClaimNamespace(m.state, c), GrantKey(m.state, c))
  {
    var ns := ClaimNamespace(m.state, c);
    ClaimPops(m, c);
    AttemptGrants(m.state, c, RecoverExpired(m, ns, c.now).m);
    GrantKeyIs(m.state, c);
    hide Coherent, ClaimOverflows, ClaimReady, ClaimTasks, ClaimExpired, RecoverExpired, Attempt, ClaimFresh, LeasedBy,
      GrantKey, ClaimNamespace;
  }

  lemma ClaimEntries(m: Machine, c: Command)
    requires Coherent(m) && m.changes == NoChanges && c.ClaimTask? && !ClaimOverflows(m.state, c)
    ensures ClaimRun(m, c).m.expirations == NextEntries(m.expirations, m.state, c)
  {
    ActiveIsHolder(m, c.lease);
    if FreshClaim(m.state, c) {
      assert ClaimRun(m, c) == ClaimFresh(m, c, ClaimNamespace(m.state, c));
      if ClaimReady(m.state, c) == {} {
        ClaimNothingEntries(m, c);
      } else {
        ClaimGrantEntries(m, c);
      }
    }
  }

  lemma OthersKeepEntries(expirations: map<nat, multiset<Key>>, s: State, c: Command)
    requires !c.ClaimTask? && !c.RenewLease?
    ensures NextEntries(expirations, s, c) == expirations
  {}

  /** The new heaps are a function of the old ones, the authoritative state and the command. */
  lemma ExecEntries(m: Machine, c: Command)
    requires Coherent(m) && !ClaimOverflows(m.state, c)
    ensures Exec(m, c).m.expirations == NextEntries(m.expirations, m.state, c)
  {
    hide Coherent, ClaimOverflows, RenewStep, ClaimStep, CompleteStep, LeaveStep, ReapStep, PruneStep, PublishStep,
      EnsureGroupStep, EnsureNamespaceStep, JoinStep, HeartbeatStep, AdvanceTermStep, LeaveRun, ReapRun, ClaimRun,
      RenewRun, PruneRun, NextEntries;
    var m' := m.(changes := NoChanges);
    RestatedAgrees(m, m.state.revision, NoChanges);
    match c
    case LeaveGroup(_, _, _) => LeaveKeeps(m', c); OthersKeepEntries(m.expirations, m.state, c);
    case ReapStaleMembers(before, max) => ReapKeeps(m', before, max); OthersKeepEntries(m.expirations, m.state, c);
    case ClaimTask(_, _, _, _, _, _, _) => ClaimEntries(m', c);
    case RenewLease(_, _, _, _, _, _, _, _, _) => RenewEntries(m', c);
    case PruneCompleted(cutoff, max) => PruneKeeps(m', cutoff, max); OthersKeepEntries(m.expirations, m.state, c);
    case _ => OthersKeepEntries(m.expirations, m.state, c);
  }

  // ---- Fewer entries before, fewer entries after ----

  ghost predicate Within(a: map<nat, multiset<Key>>, b: map<nat, multiset<Key>>) {
    forall ns: nat, k: Key :: k in HeapAt(a, ns) ==> k in HeapAt(b, ns)
  }

  lemma DrainAtHas(expirations: map<nat, multiset<Key>>, ns: nat, now: nat, n: nat, k: Key)
    ensures k in HeapAt(DrainAt(expirations, ns, now), n) <==> k in HeapAt(expirations, n) && (n == ns ==> k.at > now)
  {
    DrainKeepsLater(HeapAt(expirations, ns), now);
  }

  lemma DrainWithin(a: map<nat, multiset<Key>>, b: map<nat, multiset<Key>>, ns: nat, now: nat)
    requires Within(a, b)
    ensures Within(DrainAt(a, ns, now), DrainAt(b, ns, now))
  {
    forall n: nat, k: Key | k in HeapAt(DrainAt(a, ns, now), n) ensures k in HeapAt(DrainAt(b, ns, now), n) {
      DrainAtHas(a, ns, now, n, k);
      DrainAtHas(b, ns, now, n, k);
    }
  }

  lemma PushWithin(a: map<nat, multiset<Key>>, b: map<nat, multiset<Key>>, ns: nat, key: Key)
    requires Within(a, b)
    ensures Within(Push(a, ns, key), Push(b, ns, key))
  {
    forall n: nat, k: Key | k in HeapAt(Push(a, ns, key), n) ensures k in HeapAt(Push(b, ns, key), n) {
      PushHas(a, ns, key, n, k);
      PushHas(b, ns, key, n, k);
    }
  }

  lemma NextWithin(a: map<nat, multiset<Key>>, b: map<nat, multiset<Key>>, s: State, c: Command)
    requires Within(a, b)
    ensures Within(NextEntries(a, s, c), NextEntries(b, s, c))
  {
    hide Within, Push, DrainAt, RenewStep, Admit, LeaseHolders, ClaimOverflows, GrantKey, RenewKey;
    if Renews(s, c) {
      PushWithin(a, b, s.tasks[c.task].ns, RenewKey(s, c));
    } else if FreshClaim(s, c) {
      var ns := ClaimNamespace(s, c);
      DrainWithin(a, b, ns, c.now);
      if Grants(s, c) {
        PushWithin(DrainAt(a, ns, c.now), DrainAt(b, ns, c.now), ns, GrantKey(s, c));
      }
    }
  }
}
