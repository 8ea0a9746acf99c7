/** Who owns a lease, in the machine itself: a current member of a group in the Task's namespace, until a
    claim hands out a Task of another namespace, and never in logs that keep Task ids at home. */
module Ownership {
  import opened Order
  import opened Tasks
  import opened Groups
  import opened BrokerState
  import opened BrokerMachine
  import opened DepartureRefinement
  import opened Refinement
  import opened Soundness
  import opened Entries
  import opened Progress
  import opened Membership
  import opened Fencing
  import opened Runs
  import opened Replicas
  import opened Integrity

  /** The claim is answered with a Task that is not in the namespace of the claimant's group. */
  predicate Abroad(m: Machine, c: Command) {
    var r := Exec(m, c).reply;
    && c.ClaimTask? && r.Ok? && r.value.ClaimReply? && r.value.claimed.Some?
    && c.group in m.state.groups && r.value.claimed.value in m.state.tasks
    && m.state.tasks[r.value.claimed.value].ns != m.state.groups[c.group].ns
  }

  // ---- A claim ----

  lemma RequeuedStaysOwned(a: Task, b: Task, groups: map<nat, Group>)
    requires Touched(a, b) && Owned(a, groups)
    ensures Owned(b, groups) && b.ns == a.ns
  {}

  lemma RecoveredOwned(m: Machine, ns: nat, now: nat)
    requires AllOwned(m.state)
    ensures
      var s' := RecoverExpired(m, ns, now).m.state;
      && AllOwned(s') && s'.groups == m.state.groups
      && forall t :: t in s'.tasks ==> t in m.state.tasks && s'.tasks[t].ns == m.state.tasks[t].ns
  {
    hide RecoverExpired, Owned, Touched;
    var s' := RecoverExpired(m, ns, now).m.state;
    RecoverOnly(m, ns, now);
    forall t | t in s'.tasks
      ensures t in m.state.tasks && s'.tasks[t].ns == m.state.tasks[t].ns && Owned(s'.tasks[t], s'.groups)
    {
      RecoverTouches(m, ns, now, t);
      RequeuedStaysOwned(m.state.tasks[t], s'.tasks[t], m.state.groups);
    }
  }

  lemma RecoverOnly(m: Machine, ns: nat, now: nat)
    ensures OnlyTasks(m, RecoverExpired(m, ns, now).m)
  {
    hide RequeueExpired, Drain, Due;
    if ns in m.expirations {
      RecoveryOnly(m.(expirations := m.expirations[ns := Drain(m.expirations[ns], now)]), ns,
                   Due(m.expirations[ns], m.state.tasks, now), now, 0);
    }
  }

  /** What a grant does, if it does anything: one Task is leased to the claimant. */
  lemma LendIs(m: Machine, c: Command, ns: nat, t: nat)
    requires c.ClaimTask?
    ensures
      var r := GrantLease(m, c, ns, t);
      if r.reply.Err? then r.m == m
      else
        && t in m.state.tasks && r.m.state.groups == m.state.groups
        && r.reply.value.ClaimReply? && r.reply.value.claimed == Some(t)
        && exists task ::
             && r.m.state.tasks == m.state.tasks[t := task] && task.ns == m.state.tasks[t].ns && task.state.Leased?
             && task.state.lease.group == c.group && task.state.lease.owner == c.member
             && task.state.lease.generation == c.expectedGeneration
  {
    hide Push, AddHeld, LeaseKey;
  }

  /** A claimant that was admitted owns exactly what is in its group's namespace. */
  lemma LendOwned(m: Machine, c: Command, ns: nat, t: nat)
    requires c.ClaimTask? && AllOwned(m.state) && t in m.state.tasks
    requires Admit(m.state, c.expectedTerm, c.group, c.member, c.expectedGeneration).None?
    requires m.state.groups[c.group].ns == ns
    ensures
      var r := GrantLease(m, c, ns, t);
      AllOwned(r.m.state) <==> r.reply.Err? || m.state.tasks[t].ns == ns
  {
    hide GrantLease;
    LendIs(m, c, ns, t);
    var r := GrantLease(m, c, ns, t);
    if r.reply.Ok? {
      var task :| r.m.state.tasks == m.state.tasks[t := task] && task.ns == m.state.tasks[t].ns && task.state.Leased?
               && task.state.lease.group == c.group && task.state.lease.owner == c.member
               && task.state.lease.generation == c.expectedGeneration;
      assert r.m.state.tasks[t] == task;
    }
  }

  /** The answer hands out Task `t`. */
  predicate HandsOut(r: Result<Reply, Error>, t: nat) {
    r.Ok? && r.value.ClaimReply? && r.value.claimed == Some(t)
  }

  lemma FreshOwned(m: Machine, c: Command, ns: nat)
    requires c.ClaimTask? && AllOwned(m.state)
    requires Admit(m.state, c.expectedTerm, c.group, c.member, c.expectedGeneration).None?
    requires m.state.groups[c.group].ns == ns
    ensures
      var r := ClaimFresh(m, c, ns);
      AllOwned(r.m.state) <==>
        !(exists t :: HandsOut(r.reply, t) && t in m.state.tasks && m.state.tasks[t].ns != ns)
  {
    hide RecoverExpired, PopReady, GrantLease, HeapAt, AllOwned;
    RecoveredOwned(m, ns, c.now);
    RecoverOnly(m, ns, c.now);
    var rec := RecoverExpired(m, ns, c.now);
    var (heap, popped) := PopReady(HeapAt(rec.m.ready, ns), rec.m.state.tasks);
    var m' := if ns in rec.m.ready then rec.m.(ready := rec.m.ready[ns := heap]) else rec.m;
    if rec.failed.None? && popped.Some? {
      PoppedIsQueued(HeapAt(rec.m.ready, ns), rec.m.state.tasks);
      LendOwned(m', c, ns, popped.value);
      LendIs(m', c, ns, popped.value);
    } else {
      RevisedOwned(rec.m.state, ClaimFresh(m, c, ns).m.state);
    }
  }

  lemma RevisedOwned(s: State, s': State)
    requires AllOwned(s) && s'.tasks == s.tasks && s'.groups == s.groups
    ensures AllOwned(s')
  {}

  lemma {:induction false} PoppedIsQueued(h: multiset<Key>, tasks: map<nat, Task>)
    ensures
      var (rest, popped) := PopReady(h, tasks);
      && (forall k | k in rest :: k in h)
      && (popped.Some? ==> IsQueued(tasks, popped.value) && exists k :: k in h && k.id == popped.value)
    decreases |h|
  {
    if h != multiset{} {
      var k := MinKey(Support(h));
      assert k in h;
      PoppedIsQueued(h - multiset{k}, tasks);
    }
  }

  lemma RepeatIsHome(m: Machine, c: Command, t: nat)
    requires c.ClaimTask? && AllOwned(m.state) && t in m.state.tasks && HeldBy(m.state.tasks[t], c.group, c.member)
    ensures c.group in m.state.groups && m.state.tasks[t].ns == m.state.groups[c.group].ns
  {
    assert Owned(m.state.tasks[t], m.state.groups);
  }

  lemma ClaimOwned(m: Machine, c: Command)
    requires c.ClaimTask? && AllOwned(m.state)
    ensures AllOwned(Exec(m, c).m.state) <==> !Abroad(m, c)
  {
    hide ClaimFresh, AllOwned;
    var m' := m.(changes := NoChanges);
    if Admit(m.state, c.expectedTerm, c.group, c.member, c.expectedGeneration).None? {
      if c.lease in m.active {
        var t := m.active[c.lease];
        if t in m.state.tasks && HeldBy(m.state.tasks[t], c.group, c.member) {
          RepeatIsHome(m, c, t);
        }
      } else {
        var ns := m.state.groups[c.group].ns;
        FreshOwned(m', c, ns);
        var r := ClaimFresh(m', c, ns).reply;
        if r.Ok? && r.value.ClaimReply? && r.value.claimed.Some? {
          assert HandsOut(r, r.value.claimed.value);
        }
      }
    }
  }

  // ---- The other commands ----

  lemma JoinKeepsMembers(s: State, c: Command, g: nat)
    requires (c.JoinGroup? || c.Heartbeat?) && g in s.groups
    ensures g in Step(s, c).state.groups && s.groups[g].consumers.Keys <= Step(s, c).state.groups[g].consumers.Keys
  {
    hide PublishSpec, EnsureGroupSpec, ClaimStep, RenewStep, CompleteStep, LeaveStep, ReapStep, PruneStep,
      EnsureNamespaceStep, AdvanceTermStep;
  }

  lemma ReapedHoldNothing(groups: map<nat, Group>, tasks: map<nat, Task>, selected: set<Key>, g: nat, w: nat)
    requires AllReleased(tasks, selected, AffectedGroups(selected)) && g in groups && w in groups[g].consumers
    requires w !in ReapedGroups(groups, selected, AffectedGroups(selected))[g].consumers
    ensures NoneHeld(tasks, g, w)
  {
    hide NoneHeld;
    var k :| k in selected && k.id == g && k.tag == w;
    assert k.id in AffectedGroups(selected);
  }

  /** Whoever is no longer a member after a command holds nothing any more. */
  lemma LeaversHoldNothing(m: Machine, c: Command, g: nat, w: nat)
    requires Covered(m, {}) && g in m.state.groups && w in m.state.groups[g].consumers
    requires g in Exec(m, c).m.state.groups && w !in Exec(m, c).m.state.groups[g].consumers
    ensures NoneHeld(Exec(m, c).m.state.tasks, g, w)
  {
    hide NoneHeld, Covered, ClaimRun, LeaveRun, ReapRun, PruneRun, PublishRun, EnsureGroupRun, RenewRun, CompleteRun,
      JoinStep, HeartbeatStep, EnsureNamespaceStep, AdvanceTermStep, FirstN, StaleKeys, ReapedGroups, AllReleased,
      AffectedGroups;
    var m' := m.(changes := NoChanges);
    SameCovered(m, m', {});
    match c
    case ClaimTask(_, _, _, _, _, _, _) => ClaimRunKeepsGroups(m', c);
    case LeaveGroup(_, _, _) => LeaveCovered(m', c);
    case ReapStaleMembers(before, max) =>
      ReapCovered(m', before, max);
      if Exec(m, c).m.state.groups != m.state.groups {
        ReapedHoldNothing(m.state.groups, Exec(m, c).m.state.tasks,
                          FirstN(StaleKeys(m.state.groups, before), max), g, w);
      }
    case PruneCompleted(cutoff, max) => PruneRunKeepsGroups(m', cutoff, max);
    case PublishTask(_, _, _, _, _) => PublishAdds(m', c);
    case RenewLease(_, _, _, _, _, _, _, _, _) => RenewRunKeepsGroups(m', c);
    case CompleteTask(_, _, _, _, _, _, _, _, _) => CompleteRunKeepsGroups(m', c);
    case EnsureGroup(_, _, _) => EnsureGroupAdds(m', c);
    case JoinGroup(_, _, _, _, _) => JoinKeepsMembers(m.state, c, g);
    case Heartbeat(_, _, _, _) => JoinKeepsMembers(m.state, c, g);
    case EnsureNamespace(_, _) => UngroupedKeepGroups(m.state, c);
    case AdvanceTerm(_, _) => UngroupedKeepGroups(m.state, c);
  }

  /** A lease with the same holder and generation stays owned if the group followed its law and the
      holder is still there. */
  lemma StaysOwned(a: Task, b: Task, groups: map<nat, Group>, groups': map<nat, Group>)
    requires Owned(a, groups) && b.ns == a.ns && a.state.Leased? && b.state.Leased?
    requires b.state.lease == a.state.lease.(expiresAt := b.state.lease.expiresAt)
    requires
      var g := a.state.lease.group;
      g in groups && g in groups' && GroupLaw(groups[g], groups'[g]) && a.state.lease.owner in groups'[g].consumers
    ensures Owned(b, groups')
  {}

  /** What is leased after a command other than a claim was leased before, to the same holder. */
  lemma SameLease(s: State, c: Command, s': State, t: nat)
    requires Lawful(s, c, s', t) && !c.ClaimTask? && t in s'.tasks && s'.tasks[t].state.Leased?
    ensures t in s.tasks && s.tasks[t].state.Leased? && s'.tasks[t].ns == s.tasks[t].ns
    ensures s'.tasks[t].state.lease == s.tasks[t].state.lease.(expiresAt := s'.tasks[t].state.lease.expiresAt)
  {
    hide Renews, Completes, ReapsOwner;
  }

  lemma OtherOwned(m: Machine, c: Command)
    requires !c.ClaimTask? && Covered(m, {}) && AllOwned(m.state)
    ensures AllOwned(Exec(m, c).m.state)
  {
    hide Exec, Covered, Lawful, GroupLaw;
    var s, s' := m.state, Exec(m, c).m.state;
    forall t | t in s'.tasks ensures Owned(s'.tasks[t], s'.groups) {
      if s'.tasks[t].state.Leased? {
        ExecLawful(m, c, t);
        SameLease(s, c, s', t);
        var l := s.tasks[t].state.lease;
        assert Owned(s.tasks[t], s.groups);
        ExecGroupLaw(m, c, l.group);
        assert HeldBy(s'.tasks[t], l.group, l.owner);
        if l.owner !in s'.groups[l.group].consumers {
          LeaversHoldNothing(m, c, l.group, l.owner);
        }
        StaysOwned(s.tasks[t], s'.tasks[t], s.groups, s'.groups);
      }
    }
  }

  /** Where every lease is owned, every lease is owned after the next command if and only if that did not
      hand out a Task of another namespace. */
  lemma OwnedExactly(m: Machine, c: Command)
    requires Covered(m, {}) && AllOwned(m.state)
    ensures AllOwned(Exec(m, c).m.state) <==> !Abroad(m, c)
  {
    hide Exec, Covered, AllOwned;
    if c.ClaimTask? {
      ClaimOwned(m, c);
    } else {
      OtherOwned(m, c);
    }
  }

  // ---- Whole runs ----

  ghost predicate AlwaysOwned(m: Machine, log: seq<Command>)
    decreases |log|
  {
    AllOwned(m.state) && (log != [] ==> AlwaysOwned(Exec(m, log[0]).m, log[1..]))
  }

  predicate NeverAbroad(m: Machine, log: seq<Command>)
    decreases |log|
  {
    log == [] || (!Abroad(m, log[0]) && NeverAbroad(Exec(m, log[0]).m, log[1..]))
  }

  /** Every lease of every state of a run is owned if and only if no answer handed a Task abroad. */
  lemma {:induction false} OwnedRunExactly(m: Machine, log: seq<Command>)
    requires Covered(m, {}) && AllOwned(m.state)
    ensures AlwaysOwned(m, log) <==> NeverAbroad(m, log)
    decreases |log|
  {
    hide Exec, Covered, AllOwned, Abroad;
    if log != [] {
      OwnedExactly(m, log[0]);
      ExecCovered(m, log[0]);
      if !Abroad(m, log[0]) {
        OwnedRunExactly(Exec(m, log[0]).m, log[1..]);
      }
    }
  }

  /** Safe logs lead to sound states of the machine. */
  lemma SafeRunSound(log: seq<Command>)
    requires Safe(EmptyMachine, log)
    ensures Sound(After(EmptyMachine, log).state)
  {
    hide Sound, Safe, After, StateAfter, Replies, RepliesOf, Coherence.Coherent;
    EmptyIsGood();
    RunRefines(EmptyMachine, log);
    SoundRun(EmptyState, log);
  }

  // ---- Logs that keep Task ids at home ----

  ghost predicate TasksAtHome(tasks: map<nat, Task>, home: nat -> nat) {
    forall t :: t in tasks ==> tasks[t].ns == home(t)
  }

  ghost predicate QueuesHomed(m: Machine, home: nat -> nat) {
    EntriesHomed(m.expirations, home) && EntriesHomed(m.ready, home)
  }

  /** Tasks, expiration entries and ready entries are all in the home namespace of their Task id. */
  ghost predicate AtHome(m: Machine, home: nat -> nat) {
    TasksAtHome(m.state.tasks, home) && QueuesHomed(m, home)
  }

  lemma FewerHomed(a: map<nat, multiset<Key>>, ns: nat, h: multiset<Key>, home: nat -> nat)
    requires EntriesHomed(a, home) && forall k | k in h :: k in HeapAt(a, ns)
    ensures EntriesHomed(a[ns := h], home)
  {
    var b := a[ns := h];
    forall n: nat, k: Key | k in HeapAt(b, n) ensures home(k.id) == n {
      assert k in HeapAt(a, n);
    }
  }

  lemma RequeueHomed(m: Machine, t: nat, ns: nat, home: nat -> nat)
    requires QueuesHomed(m, home) && t in m.state.tasks && m.state.tasks[t].state.Leased? && home(t) == ns
    ensures QueuesHomed(RequeueOne(m, t, ns), home)
  {
    hide EntriesHomed, Push;
    HomedPush(m.ready, home, ns, ReadyKey(t, m.state.tasks[t]));
  }

  lemma {:induction false} RecoveryHomed(m: Machine, ns: nat, ids: set<nat>, now: nat, count: nat, home: nat -> nat)
    requires QueuesHomed(m, home) && forall t | t in ids :: home(t) == ns
    ensures QueuesHomed(RequeueExpired(m, ns, ids, now, count).m, home)
    decreases |ids|
  {
    hide QueuesHomed;
    if ids != {} {
      var t := MinId(ids);
      MinIdIn(ids);
      if t in m.state.tasks && RequeueIfExpired(m.state.tasks[t], now).Ok? &&
         RequeueIfExpired(m.state.tasks[t], now).value.1 {
        RequeueHomed(m, t, ns, home);
        RecoveryHomed(RequeueOne(m, t, ns), ns, ids - {t}, now, count + 1, home);
      } else {
        RecoveryHomed(m, ns, ids - {t}, now, count, home);
      }
    }
  }

  lemma {:induction false} DrainFewer(h: multiset<Key>, now: nat)
    ensures forall k | k in Drain(h, now) :: k in h
    decreases |h|
  {
    if h != multiset{} {
      var k := MinKey(Support(h));
      assert k in h;
      DrainFewer(h - multiset{k}, now);
    }
  }

  lemma RecoverHomed(m: Machine, ns: nat, now: nat, home: nat -> nat)
    requires QueuesHomed(m, home)
    ensures QueuesHomed(RecoverExpired(m, ns, now).m, home)
  {
    hide RequeueExpired, Drain;
    if ns in m.expirations {
      var h := m.expirations[ns];
      DrainFewer(h, now);
      FewerHomed(m.expirations, ns, Drain(h, now), home);
      forall t | t in Due(h, m.state.tasks, now) ensures home(t) == ns {
        var k :| k in h && k.id == t;
        assert k in HeapAt(m.expirations, ns);
      }
      RecoveryHomed(m.(expirations := m.expirations[ns := Drain(h, now)]), ns,
                    Due(h, m.state.tasks, now), now, 0, home);
    }
  }

  lemma LendHomed(m: Machine, c: Command, ns: nat, t: nat, home: nat -> nat)
    requires c.ClaimTask? && QueuesHomed(m, home) && home(t) == ns
    ensures QueuesHomed(GrantLease(m, c, ns, t).m, home)
  {
    hide EntriesHomed, Push, AddHeld, ClaimReplyOf;
    if t in m.state.tasks {
      var claimed := Tasks.ClaimTask(m.state.tasks[t],
                                     Grant(c.lease, c.member, c.group, c.expectedGeneration, c.now + c.duration));
      if claimed.Ok? {
        HomedPush(m.expirations, home, ns, LeaseKey(t, claimed.value.state.lease));
      }
    }
  }

  /** A fresh claim keeps the entries at home, and what it hands out is at home in the namespace. */
  lemma FreshHomed(m: Machine, c: Command, ns: nat, home: nat -> nat)
    requires c.ClaimTask? && QueuesHomed(m, home)
    ensures QueuesHomed(ClaimFresh(m, c, ns).m, home)
    ensures forall t :: HandsOut(ClaimFresh(m, c, ns).reply, t) ==> home(t) == ns
  {
    hide RecoverExpired, PopReady, GrantLease, EntriesHomed;
    RecoverHomed(m, ns, c.now, home);
    var rec := RecoverExpired(m, ns, c.now);
    var h := HeapAt(rec.m.ready, ns);
    var (heap, popped) := PopReady(h, rec.m.state.tasks);
    PoppedIsQueued(h, rec.m.state.tasks);
    FewerHomed(rec.m.ready, ns, heap, home);
    var m' := if ns in rec.m.ready then rec.m.(ready := rec.m.ready[ns := heap]) else rec.m;
    if rec.failed.None? && popped.Some? {
      PoppedHomed(rec.m.ready, ns, popped.value, home);
      LendHomed(m', c, ns, popped.value, home);
      LendIs(m', c, ns, popped.value);
    }
  }

  lemma PoppedHomed(ready: map<nat, multiset<Key>>, ns: nat, t: nat, home: nat -> nat)
    requires EntriesHomed(ready, home) && exists k :: k in HeapAt(ready, ns) && k.id == t
    ensures home(t) == ns
  {}

  lemma ClaimHomed(m: Machine, c: Command, home: nat -> nat)
    requires c.ClaimTask? && QueuesHomed(m, home)
    ensures QueuesHomed(ClaimRun(m, c).m, home)
  {
    hide ClaimFresh, QueuesHomed;
    if c.group in m.state.groups {
      FreshHomed(m, c, m.state.groups[c.group].ns, home);
    }
  }

  /** With everything at home no claim hands a Task abroad. */
  lemma HomedNotAbroad(m: Machine, c: Command, home: nat -> nat)
    requires AtHome(m, home) && AllOwned(m.state)
    ensures !Abroad(m, c)
  {
    if c.ClaimTask? && Admit(m.state, c.expectedTerm, c.group, c.member, c.expectedGeneration).None? {
      if c.lease in m.active {
        hide ClaimFresh, AllOwned;
        var t := m.active[c.lease];
        if t in m.state.tasks && HeldBy(m.state.tasks[t], c.group, c.member) {
          RepeatIsHome(m, c, t);
        }
      } else {
        var m', ns := m.(changes := NoChanges), m.state.groups[c.group].ns;
        FreshHomed(m', c, ns, home);
        hide ClaimFresh, AllOwned, EntriesHomed;
        var r := ClaimFresh(m', c, ns).reply;
        if r.Ok? && r.value.ClaimReply? && r.value.claimed.Some? {
          assert HandsOut(r, r.value.claimed.value);
        }
      }
    }
  }

  // ---- Loops and commands that requeue where the Task is ----

  lemma {:induction false} HeldHomed(m: Machine, group: nat, member: nat, ids: set<nat>, home: nat -> nat)
    requires QueuesHomed(m, home) && TasksAtHome(m.state.tasks, home)
    ensures
      var m' := RequeueHeld(m, group, member, ids).m;
      QueuesHomed(m', home) && TasksAtHome(m'.state.tasks, home)
    decreases |ids|
  {
    hide QueuesHomed;
    if ids != {} {
      var t := MinId(ids);
      MinIdIn(ids);
      if t in m.state.tasks && HeldBy(m.state.tasks[t], group, member) && m.state.tasks[t].revision < U64_MAX {
        RequeueHomed(m, t, m.state.tasks[t].ns, home);
        HeldHomed(RequeueOne(m, t, m.state.tasks[t].ns), group, member, ids - {t}, home);
      } else {
        HeldHomed(m, group, member, ids - {t}, home);
      }
    }
  }

  lemma {:induction false} RemovedHomed(m: Machine, group: nat, removed: set<Key>, home: nat -> nat)
    requires QueuesHomed(m, home) && TasksAtHome(m.state.tasks, home)
    ensures
      var m' := RequeueRemoved(m, group, removed).m;
      QueuesHomed(m', home) && TasksAtHome(m'.state.tasks, home)
    decreases |removed|
  {
    hide EntriesHomed, TasksAtHome, RequeueHeld;
    if removed != {} {
      var k := MinKey(removed);
      var key := (group, k.id);
      HeldHomed(m.(held := m.held - {key}), group, k.id, LeasesOf(m.held, key), home);
      RemovedHomed(RequeueMember(m, group, k.id).m, group, removed - {k}, home);
    }
  }

  lemma {:induction false} ReapHomed(
    m: Machine, selected: set<Key>, ids: set<nat>, before: nat, count: nat, affected: set<nat>, home: nat -> nat)
    requires QueuesHomed(m, home) && TasksAtHome(m.state.tasks, home)
    ensures QueuesHomed(ReapGroups(m, selected, ids, before, count, affected).m, home)
    decreases |ids|
  {
    hide EntriesHomed, TasksAtHome, ReapTurn;
    if ids != {} {
      var g := MinId(ids);
      MinIdIn(ids);
      TurnHomed(m, selected, g, before, home);
      var turn := ReapTurn(m, selected, g, before);
      ReapHomed(turn.m, selected, ids - {g}, before, count + |turn.removed|,
                if turn.removed == {} then affected else affected + {g}, home);
    }
  }

  lemma TurnHomed(m: Machine, selected: set<Key>, g: nat, before: nat, home: nat -> nat)
    requires QueuesHomed(m, home) && TasksAtHome(m.state.tasks, home)
    ensures
      var m' := ReapTurn(m, selected, g, before).m;
      QueuesHomed(m', home) && TasksAtHome(m'.state.tasks, home)
  {
    hide EntriesHomed, TasksAtHome, RequeueRemoved;
    if g in m.state.groups {
      var r := ReapGroup(m.state.groups[g], before, |KeysOf(selected, g)|);
      if r.Ok? {
        RemovedHomed(m.(state := m.state.(groups := m.state.groups[g := r.value.0])), g, r.value.1, home);
      }
    }
  }

  lemma ReapRunHomed(m: Machine, before: nat, max: nat, home: nat -> nat)
    requires QueuesHomed(m, home) && TasksAtHome(m.state.tasks, home)
    ensures QueuesHomed(ReapRun(m, before, max).m, home)
  {
    hide EntriesHomed, TasksAtHome, ReapGroups, FirstN, StaleKeys, Preflight, CanAdvance, AffectedGroups;
    var selected := FirstN(StaleKeys(m.state.groups, before), max);
    ReapHomed(m, selected, AffectedGroups(selected), before, 0, {}, home);
  }

  lemma LeaveRunHomed(m: Machine, c: Command, home: nat -> nat)
    requires c.LeaveGroup? && QueuesHomed(m, home) && TasksAtHome(m.state.tasks, home)
    ensures QueuesHomed(LeaveRun(m, c).m, home)
  {
    hide EntriesHomed, TasksAtHome, RequeueHeld, Preflight, Groups.LeaveGroup;
    if c.group in m.state.groups {
      var left := Groups.LeaveGroup(m.state.groups[c.group], c.member, c.expectedGeneration);
      if left.Ok? {
        var key := (c.group, c.member);
        var gone := m.(state := m.state.(groups := m.state.groups[c.group := left.value]));
        HeldHomed(gone.(held := gone.held - {key}), c.group, c.member, LeasesOf(gone.held, key), home);
      }
    }
  }

  lemma PruneHomed(m: Machine, cutoff: nat, max: nat, home: nat -> nat)
    requires QueuesHomed(m, home)
    ensures QueuesHomed(PruneRun(m, cutoff, max).m, home)
  {
    hide EntriesHomed, Probe, Underflows, Destroy;
    DestroyOnly(m, |Probe(m.completed, m.state.tasks, cutoff, max)|, cutoff, 0);
  }

  lemma PublishHomed(m: Machine, c: Command, home: nat -> nat)
    requires c.PublishTask? && KeepsHome(c, home) && QueuesHomed(m, home)
    ensures QueuesHomed(PublishRun(m, c).m, home)
  {
    hide EntriesHomed, Push, PublishStep, CountAt;
    HomedPush(m.ready, home, c.ns, Key(c.createdAt, c.task, 0));
  }

  lemma RenewHomed(m: Machine, c: Command, home: nat -> nat)
    requires c.RenewLease? && QueuesHomed(m, home) && TasksAtHome(m.state.tasks, home)
    ensures QueuesHomed(RenewRun(m, c).m, home)
  {
    RenewStepIs(m.state, c);
    hide EntriesHomed, Push, RenewStep;
    var o := RenewStep(m.state, c);
    if o.reply.Ok? {
      var task := o.state.tasks[c.task];
      HomedPush(m.expirations, home, task.ns, Key(c.now + c.duration, c.task, Epoch(task)));
    }
  }

  lemma CompleteQueues(m: Machine, c: Command)
    requires c.CompleteTask?
    ensures CompleteRun(m, c).m.expirations == m.expirations && CompleteRun(m, c).m.ready == m.ready
  {
    hide CompleteStep, RemoveHeld;
  }

  lemma EnsureGroupQueues(m: Machine, c: Command)
    requires c.EnsureGroup?
    ensures EnsureGroupRun(m, c).m.expirations == m.expirations && EnsureGroupRun(m, c).m.ready == m.ready
  {
    hide EnsureGroupStep, CountAt;
  }

  lemma ExecQueuesHomed(m: Machine, c: Command, home: nat -> nat)
    requires QueuesHomed(m, home) && TasksAtHome(m.state.tasks, home) && KeepsHome(c, home)
    ensures QueuesHomed(Exec(m, c).m, home)
  {
    hide EntriesHomed, TasksAtHome, KeepsHome, ClaimRun, LeaveRun, ReapRun, PruneRun, PublishRun, EnsureGroupRun,
      RenewRun, CompleteRun, JoinStep, HeartbeatStep, EnsureNamespaceStep, AdvanceTermStep;
    var m' := m.(changes := NoChanges);
    match c
    case ClaimTask(_, _, _, _, _, _, _) => ClaimHomed(m', c, home);
    case LeaveGroup(_, _, _) => LeaveRunHomed(m', c, home);
    case ReapStaleMembers(before, max) => ReapRunHomed(m', before, max, home);
    case PruneCompleted(cutoff, max) => PruneHomed(m', cutoff, max, home);
    case PublishTask(_, _, _, _, _) => PublishHomed(m', c, home);
    case RenewLease(_, _, _, _, _, _, _, _, _) => RenewHomed(m', c, home);
    case CompleteTask(_, _, _, _, _, _, _, _, _) => CompleteQueues(m', c);
    case EnsureGroup(_, _, _) => EnsureGroupQueues(m', c);
    case _ =>
  }

  lemma MovedHomed(s: State, c: Command, s': State, t: nat, home: nat -> nat)
    requires Lawful(s, c, s', t) && KeepsHome(c, home) && t in s'.tasks && (t in s.tasks ==> s.tasks[t].ns == home(t))
    ensures s'.tasks[t].ns == home(t)
  {
    hide Renews, Completes, ReapsOwner;
  }

  lemma ExecAtHome(m: Machine, c: Command, home: nat -> nat)
    requires AtHome(m, home) && KeepsHome(c, home)
    ensures AtHome(Exec(m, c).m, home)
  {
    hide Exec, EntriesHomed, Lawful, KeepsHome;
    ExecQueuesHomed(m, c, home);
    var s' := Exec(m, c).m.state;
    forall t | t in s'.tasks ensures s'.tasks[t].ns == home(t) {
      ExecLawful(m, c, t);
      MovedHomed(m.state, c, s', t, home);
    }
  }

  /** A log that keeps each Task id to one namespace leaves every lease owned in every state, also when
      claims overflow on the way. */
  lemma {:induction false} HomedAlwaysOwned(m: Machine, log: seq<Command>, home: nat -> nat)
    requires AtHome(m, home) && Covered(m, {}) && AllOwned(m.state) && forall c | c in log :: KeepsHome(c, home)
    ensures AlwaysOwned(m, log) && AllOwned(After(m, log).state)
    decreases |log|
  {
    hide Exec, AtHome, Covered, AllOwned, KeepsHome;
    if log != [] {
      var c := log[0];
      assert c in log && forall d | d in log[1..] :: d in log;
      HomedNotAbroad(m, c, home);
      OwnedExactly(m, c);
      ExecCovered(m, c);
      ExecAtHome(m, c, home);
      HomedAlwaysOwned(Exec(m, c).m, log[1..], home);
    }
  }

  lemma EmptyIsOwned(home: nat -> nat)
    ensures AtHome(EmptyMachine, home) && Covered(EmptyMachine, {}) && AllOwned(EmptyMachine.state)
  {}
}
