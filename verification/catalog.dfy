/** Catalog: what is created, forgotten and superseded - namespaces, Tasks, groups and terms - and that a
    refusal tells the truth. */
module Catalog {
  import opened Order
  import opened Tasks
  import opened Groups
  import opened BrokerState
  import opened BrokerMachine
  import opened Coherence
  import opened ClaimRefinement
  import opened Refinement
  import opened Fencing
  import opened Answers
  import opened Presence

  // ---- Namespaces and terms, on any machine ----

  /** A namespace is created while there is room, at revision one, and found again afterwards. */
  ghost predicate NamespaceEnsured(s: State, c: Command, s': State, reply: Result<Reply, Error>) {
    && c.EnsureNamespace?
    && (reply.Ok? <==> c.ns in s.namespaces || (|s.namespaces| < c.maxNamespaces && s.revision < U64_MAX))
    && (reply.Err? || c.ns in s.namespaces ==> s' == s)
    && (reply.Ok? && c.ns !in s.namespaces ==>
          && s' == s.(namespaces := s'.namespaces, revision := s.revision + 1)
          && s'.namespaces.Keys == s.namespaces.Keys + {c.ns} && s'.namespaces[c.ns] == 1
          && forall n :: n in s.namespaces ==> s'.namespaces[n] == s.namespaces[n])
    && (reply.Ok? ==>
          && c.ns in s'.namespaces && reply.value.NamespaceReply? && Dated(reply.value.meta, s')
          && reply.value.ns == c.ns && reply.value.nsRevision == s'.namespaces[c.ns])
  }

  lemma NamespaceAnswers(m: Machine, c: Command)
    requires c.EnsureNamespace?
    ensures NamespaceEnsured(m.state, c, Exec(m, c).m.state, Exec(m, c).reply)
  {
    hide Exec;
    IndexFree(m, c);
  }

  /** A term gives way exactly to a greater one, proposed by someone who knows it; nothing else changes but
      the revision. */
  predicate TermAdvanced(s: State, c: Command, s': State, reply: Result<Reply, Error>) {
    && c.AdvanceTerm?
    && (reply.Ok? <==> c.expectedTerm == s.term < c.newTerm && s.revision < U64_MAX)
    && (reply.Err? ==> s' == s)
    && (reply.Ok? ==>
          && s' == s.(term := c.newTerm, revision := s.revision + 1)
          && reply.value.TermReply? && Dated(reply.value.meta, s'))
  }

  lemma TermAnswers(m: Machine, c: Command)
    requires c.AdvanceTerm?
    ensures TermAdvanced(m.state, c, Exec(m, c).m.state, Exec(m, c).reply)
  {
    hide Exec;
    IndexFree(m, c);
  }

  // ---- Tasks and groups ----

  /** A Task as it is published: queued, never leased. */
  predicate Published(task: Task, c: Command)
    requires c.PublishTask?
  {
    && task.ns == c.ns && task.objective == c.objective && task.createdAt == c.createdAt && task.revision == 1
    && task.state == Queued(0)
  }

  predicate DescribesTask(r: Reply, s: State, t: nat) {
    && r.PublishedReply? && Dated(r.meta, s) && t in s.tasks && r.task == t && r.taskRevision == s.tasks[t].revision
    && (r.status.StatusQueued? <==> s.tasks[t].state.Queued?) && (r.status.StatusLeased? <==> s.tasks[t].state.Leased?)
    && (r.status.StatusCompleted? <==> s.tasks[t].state.Completed?)
  }

  /** A publication creates a queued Task while there is room, and answers whoever repeats namespace and
      objective with the Task as it is. */
  ghost predicate TaskPublished(s: State, c: Command, s': State, reply: Result<Reply, Error>) {
    && c.PublishTask?
    && (reply.Ok? <==>
          && c.ns in s.namespaces
          && if c.task in s.tasks then s.tasks[c.task].ns == c.ns && s.tasks[c.task].objective == c.objective
             else |set t | t in s.tasks && s.tasks[t].ns == c.ns| < c.maxTasks && s.revision < U64_MAX)
    && (reply.Err? || c.task in s.tasks ==> s' == s)
    && (reply.Ok? && c.task !in s.tasks ==>
          && s' == s.(tasks := s'.tasks, revision := s.revision + 1)
          && s'.tasks.Keys == s.tasks.Keys + {c.task} && Published(s'.tasks[c.task], c)
          && forall t :: t in s.tasks ==> s'.tasks[t] == s.tasks[t])
    && (reply.Ok? ==> DescribesTask(reply.value, s', c.task))
  }

  lemma PublishStepAnswers(s: State, c: Command)
    requires c.PublishTask?
    ensures TaskPublished(s, c, Step(s, c).state, Step(s, c).reply)
  {
    assert InNamespace(s.tasks, c.ns) == set t | t in s.tasks && s.tasks[t].ns == c.ns;
    hide InNamespace;
  }

  lemma PublishAnswers(m: Machine, c: Command)
    requires Coherent(m) && c.PublishTask?
    ensures TaskPublished(m.state, c, Exec(m, c).m.state, Exec(m, c).reply)
  {
    hide Exec, Step, Coherent, TaskPublished;
    ExecRefines(m, c);
    PublishStepAnswers(m.state, c);
  }

  /** A group is created without members at generation zero while there is room, and found again in its own
      namespace afterwards. */
  ghost predicate GroupEnsured(s: State, c: Command, s': State, reply: Result<Reply, Error>) {
    && c.EnsureGroup?
    && (reply.Ok? <==>
          && c.ns in s.namespaces
          && if c.group in s.groups then s.groups[c.group].ns == c.ns
             else |set g | g in s.groups && s.groups[g].ns == c.ns| < c.maxGroups && s.revision < U64_MAX)
    && (reply.Err? || c.group in s.groups ==> s' == s)
    && (reply.Ok? && c.group !in s.groups ==>
          && s' == s.(groups := s'.groups, revision := s.revision + 1)
          && s'.groups.Keys == s.groups.Keys + {c.group} && s'.groups[c.group] == Group(c.ns, 0, 1, map[])
          && forall g :: g in s.groups ==> s'.groups[g] == s.groups[g])
    && (reply.Ok? ==> DescribesGroup(reply.value, s', c.group))
  }

  lemma EnsureGroupStepAnswers(s: State, c: Command)
    requires c.EnsureGroup?
    ensures GroupEnsured(s, c, Step(s, c).state, Step(s, c).reply)
  {
    assert GroupsInNamespace(s.groups, c.ns) == set g | g in s.groups && s.groups[g].ns == c.ns;
    hide GroupsInNamespace;
  }

  lemma EnsureGroupAnswers(m: Machine, c: Command)
    requires Coherent(m) && c.EnsureGroup?
    ensures GroupEnsured(m.state, c, Exec(m, c).m.state, Exec(m, c).reply)
  {
    hide Exec, Step, Coherent, GroupEnsured;
    ExecRefines(m, c);
    EnsureGroupStepAnswers(m.state, c);
  }

  // ---- Prune ----

  predicate Prunable(s: State, t: nat, cutoff: nat) {
    t in s.tasks && s.tasks[t].state.Completed? && s.tasks[t].state.done.completedAt <= cutoff
  }

  /** Completions in order: by time, then by Task. */
  function DoneKey(s: State, t: nat): Key {
    Key(if t in s.tasks && s.tasks[t].state.Completed? then s.tasks[t].state.done.completedAt else 0, t, 0)
  }

  /** The prunable Tasks that were completed longest ago are forgotten, at most `max`, and all if there is
      room; `pruned` counts them and nothing else changes. */
  ghost predicate PrunesOldest(s: State, s': State, cutoff: nat, max: nat, pruned: nat) {
    && s' == s.(tasks := s'.tasks, revision := s.revision + (if pruned == 0 then 0 else 1))
    && s'.tasks.Keys <= s.tasks.Keys && (forall t :: t in s'.tasks ==> s'.tasks[t] == s.tasks[t])
    && pruned == |s.tasks.Keys - s'.tasks.Keys| <= max
    && (forall t :: t in s.tasks && t !in s'.tasks ==> Prunable(s, t, cutoff))
    && (pruned < max ==> forall t :: !Prunable(s', t, cutoff))
    && forall t, u :: t in s.tasks && t !in s'.tasks && Prunable(s', u, cutoff) ==>
         Below(DoneKey(s, t), DoneKey(s', u))
  }

  lemma DoomedAre(s: State, cutoff: nat, max: nat)
    ensures
      var first := FirstN(CompletedKeys(s.tasks, cutoff), max);
      && Members(first) <= s.tasks.Keys && |Members(first)| == |first|
      && forall t :: t in Members(first) <==> DoneKey(s, t) in first
  {
    var first := FirstN(CompletedKeys(s.tasks, cutoff), max);
    hide FirstN;
    assert forall k :: k in first ==> k in CompletedKeys(s.tasks, cutoff) && k == DoneKey(s, k.id);
    OneIdEach(first);
  }

  lemma {:induction false} OneIdEach(keys: set<Key>)
    requires forall j, k :: j in keys && k in keys && j.id == k.id ==> j == k
    ensures |Members(keys)| == |keys|
  {
    if keys == {} {
      assert Members(keys) == {};
    } else {
      var k :| k in keys;
      OneIdEach(keys - {k});
      assert Members(keys) == Members(keys - {k}) + {k.id};
    }
  }

  lemma PruneForgets(s: State, cutoff: nat, max: nat)
    requires PruneStep(s, cutoff, max).reply.Ok?
    ensures
      var o, doomed := PruneStep(s, cutoff, max), Members(FirstN(CompletedKeys(s.tasks, cutoff), max));
      && o.reply == Ok(PrunedReply(MetaOf(o.state), |doomed|))
      && o.state == s.(tasks := s.tasks - doomed, revision := s.revision + (if |doomed| == 0 then 0 else 1))
  {
    hide FirstN, Members, CompletedKeys;
    var doomed := Members(FirstN(CompletedKeys(s.tasks, cutoff), max));
    if doomed == {} {
      assert s.tasks - doomed == s.tasks;
    }
  }

  lemma PrunableKeys(s: State, cutoff: nat, t: nat)
    ensures Prunable(s, t, cutoff) <==> DoneKey(s, t) in CompletedKeys(s.tasks, cutoff)
  {}

  lemma Forgotten(s: State, s': State, cutoff: nat, max: nat, first: set<Key>)
    requires first == FirstN(CompletedKeys(s.tasks, cutoff), max) && s'.tasks == s.tasks - Members(first)
    ensures forall t :: t in s.tasks && t !in s'.tasks ==> Prunable(s, t, cutoff)
    ensures |first| < max ==> forall t :: !Prunable(s', t, cutoff)
    ensures forall t, u :: t in s.tasks && t !in s'.tasks && Prunable(s', u, cutoff) ==>
              Below(DoneKey(s, t), DoneKey(s', u))
  {
    DoomedAre(s, cutoff, max);
    var done := CompletedKeys(s.tasks, cutoff);
    if |first| < max {
      AllSelected(done, max);
    }
    hide FirstN, Members, CompletedKeys;
    forall t ensures Prunable(s, t, cutoff) <==> DoneKey(s, t) in done {
      PrunableKeys(s, cutoff, t);
    }
    forall u | Prunable(s', u, cutoff)
      ensures DoneKey(s, u) in done && DoneKey(s, u) !in first && DoneKey(s', u) == DoneKey(s, u)
    {
      assert u !in Members(first) && Prunable(s, u, cutoff);
    }
  }

  lemma PruneStepAnswers(s: State, cutoff: nat, max: nat)
    requires PruneStep(s, cutoff, max).reply.Ok?
    ensures
      var o := PruneStep(s, cutoff, max);
      && o.reply.value.PrunedReply? && Dated(o.reply.value.meta, o.state)
      && PrunesOldest(s, o.state, cutoff, max, o.reply.value.pruned)
  {
    hide PruneStep, FirstN, Members, CompletedKeys, Prunable, DoneKey, Below;
    var first, s' := FirstN(CompletedKeys(s.tasks, cutoff), max), PruneStep(s, cutoff, max).state;
    PruneForgets(s, cutoff, max);
    DoomedAre(s, cutoff, max);
    Forgotten(s, s', cutoff, max, first);
    assert s.tasks.Keys - s'.tasks.Keys == Members(first);
  }

  lemma NothingPrunable(s: State, cutoff: nat)
    ensures CompletedKeys(s.tasks, cutoff) == {} <==> forall t :: !Prunable(s, t, cutoff)
  {
    if forall t :: !Prunable(s, t, cutoff) {
      forall k ensures k !in CompletedKeys(s.tasks, cutoff) {
        assert !Prunable(s, k.id, cutoff);
      }
    }
    forall t ensures Prunable(s, t, cutoff) <==> DoneKey(s, t) in CompletedKeys(s.tasks, cutoff) {
      PrunableKeys(s, cutoff, t);
    }
  }

  lemma PruneDecided(s: State, cutoff: nat, max: nat)
    ensures
      var o := PruneStep(s, cutoff, max);
      && (o.reply.Ok? <==> max > 0 && (s.revision < U64_MAX || forall t :: !Prunable(s, t, cutoff)))
      && (max == 0 ==> o.reply == Err(InvalidCapacity(PruneCapacity)))
      && (o.reply.Err? ==> o.state == s)
  {
    var done := CompletedKeys(s.tasks, cutoff);
    var first := FirstN(done, max);
    DoomedAre(s, cutoff, max);
    NothingPrunable(s, cutoff);
    hide FirstN, Members, CompletedKeys, Prunable;
    assert |Members(first)| == 0 <==> |first| == 0;
  }

  /** A prune is refused only if it may forget nothing, or has something to forget and no revision left; what
      it forgets are the oldest completions, all of them if there is room. */
  ghost predicate Pruned(s: State, c: Command, s': State, reply: Result<Reply, Error>) {
    && c.PruneCompleted?
    && (reply.Ok? <==> c.maxPruned > 0 && (s.revision < U64_MAX || forall t :: !Prunable(s, t, c.completedBefore)))
    && (c.maxPruned == 0 ==> reply == Err(InvalidCapacity(PruneCapacity)))
    && (reply.Err? ==> s' == s)
    && (reply.Ok? ==>
          && reply.value.PrunedReply? && Dated(reply.value.meta, s')
          && PrunesOldest(s, s', c.completedBefore, c.maxPruned, reply.value.pruned))
  }

  lemma PruneAnswers(m: Machine, c: Command)
    requires Coherent(m) && c.PruneCompleted?
    ensures Pruned(m.state, c, Exec(m, c).m.state, Exec(m, c).reply)
  {
    hide Exec, Coherent, PruneStep, PrunesOldest, Prunable;
    ExecRefines(m, c);
    PruneDecided(m.state, c.completedBefore, c.maxPruned);
    if PruneStep(m.state, c.completedBefore, c.maxPruned).reply.Ok? {
      PruneStepAnswers(m.state, c.completedBefore, c.maxPruned);
    }
  }

  // ---- Refusals ----

  predicate FencedCommand(c: Command) {
    c.ClaimTask? || c.RenewLease? || c.CompleteTask?
  }

  /** What a refusal says of the group the command names. */
  predicate TrueOfGroup(s: State, c: Command, e: GroupError) {
    && (c.JoinGroup? || c.Heartbeat? || c.LeaveGroup? || FencedCommand(c)) && c.group in s.groups
    && var g := s.groups[c.group];
       match e
       case StaleGeneration(x, y) => !c.JoinGroup? && x == c.expectedGeneration && y == g.generation && x != y
       case MemberNotFound(w) => !c.JoinGroup? && w == c.member && w !in g.consumers
       case CapabilityConflict(w) =>
         c.JoinGroup? && w == c.member && w in g.consumers && g.consumers[w].capabilities != c.capabilities
       case MemberCapacityReached(max) =>
         c.JoinGroup? && c.member !in g.consumers && 0 < max == c.maxMembers <= |g.consumers|
       case InvalidMemberCapacity => c.JoinGroup? && c.member !in g.consumers && c.maxMembers == 0
       case GroupCounterOverflow =>
         g.generation >= U64_MAX || g.revision >= U64_MAX ||
         (c.member in g.consumers && g.consumers[c.member].revision >= U64_MAX)
  }

  /** What a refusal says of the Task the command names. */
  predicate TrueOfTask(s: State, c: Command, e: TaskError) {
    && (c.RenewLease? || c.CompleteTask?) && c.task in s.tasks
    && var task, at := s.tasks[c.task], if c.RenewLease? then c.now else c.completedAt;
       match e
       case NotQueued(_) => false
       case NotLeased(status) => status == Status(task) && !task.state.Leased?
       case StaleGroup => task.state.Leased? && task.state.lease.group != c.group
       case StaleOwner => task.state.Leased? && task.state.lease.owner != c.member
       case StaleLeaseGeneration => task.state.Leased? && task.state.lease.generation != c.expectedGeneration
       case StaleLeaseEpoch => task.state.Leased? && task.state.lease.epoch != c.expectedEpoch
       case StaleLeaseId => task.state.Leased? && task.state.lease.leaseId != c.lease
       case LeaseExpired => task.state.Leased? && task.state.lease.expiresAt <= at
       case AlreadyCompleted => c.CompleteTask? && task.state.Completed?
       case TaskCounterOverflow => task.state.Leased? && task.revision >= U64_MAX
  }

  /** A claim ran into a Task of its namespace whose revision or epoch cannot advance. */
  ghost predicate ClaimExhausts(s: State, c: Command) {
    && c.ClaimTask? && c.group in s.groups
    && exists t :: Candidate(s, s.groups[c.group].ns, c.now, t) &&
                   (s.tasks[t].revision + 1 >= U64_MAX || Epoch(s.tasks[t]) >= U64_MAX)
  }

  ghost predicate TrueOfCapacity(s: State, c: Command, k: Capacity, max: nat) {
    match k
    case NamespaceCapacity => c.EnsureNamespace? && max == c.maxNamespaces <= |s.namespaces|
    case TaskCapacity =>
      c.PublishTask? && c.task !in s.tasks && max == c.maxTasks <= |set t | t in s.tasks && s.tasks[t].ns == c.ns|
    case GroupCapacity =>
      c.EnsureGroup? && c.group !in s.groups && max == c.maxGroups <= |set g | g in s.groups && s.groups[g].ns == c.ns|
    case ReapCapacity => c.ReapStaleMembers? && max == c.maxReaped == 0
    case PruneCapacity => c.PruneCompleted? && max == c.maxPruned == 0
  }

  /** Some counter that the command would advance is at its limit. */
  ghost predicate Exhausted(s: State, c: Command) {
    || s.revision >= U64_MAX
    || (&& c.LeaveGroup?
        && exists t :: t in s.tasks && HeldBy(s.tasks[t], c.group, c.member) && s.tasks[t].revision >= U64_MAX)
    || (c.ReapStaleMembers? && !Spare(s))
  }

  /** What a refusal says is so. */
  ghost predicate Honest(s: State, c: Command, reply: Result<Reply, Error>) {
    reply.Err? ==> TrueOf(s, c, reply.error)
  }

  ghost predicate TrueOf(s: State, c: Command, e: Error) {
    match e
    case InvalidCapacity(k) => TrueOfCapacity(s, c, k, 0)
    case CapacityExceeded(k, max) => 0 < max && TrueOfCapacity(s, c, k, max)
    case NamespaceNotFound(n) => (c.PublishTask? || c.EnsureGroup?) && n == c.ns && n !in s.namespaces
    case TaskConflict(t) =>
      && c.PublishTask? && t == c.task && t in s.tasks
      && (s.tasks[t].ns != c.ns || s.tasks[t].objective != c.objective)
    case TaskNotFound(t) => (c.RenewLease? || c.CompleteTask?) && t == c.task && t !in s.tasks
    case LeaseIdConflict(l) => c.ClaimTask? && l == c.lease && !NobodyHolds(s, l)
    case StaleTerm(x, y) => (FencedCommand(c) || c.AdvanceTerm?) && x == c.expectedTerm && y == s.term && x != y
    case NewTermNotGreater(x, y) => c.AdvanceTerm? && x == s.term && y == c.newTerm && y <= x
    case TaskCountUnderflow(_) => false
    case TimestampOverflow => (c.ClaimTask? || c.RenewLease?) && c.now + c.duration > U64_MAX
    case TaskTransition(te) => TrueOfTask(s, c, te) || (te.TaskCounterOverflow? && ClaimExhausts(s, c))
    case GroupConflict(g) => c.EnsureGroup? && g == c.group && g in s.groups && s.groups[g].ns != c.ns
    case GroupNotFound(g) =>
      (c.JoinGroup? || c.Heartbeat? || c.LeaveGroup? || FencedCommand(c)) && g == c.group && g !in s.groups
    case GroupTransition(ge) => TrueOfGroup(s, c, ge)
    case CounterOverflow => Exhausted(s, c)
  }

  lemma RenewRefusal(s: State, c: Command)
    requires c.RenewLease?
    ensures Honest(s, c, Step(s, c).reply)
  {}

  lemma CompleteRefusal(s: State, c: Command)
    requires c.CompleteTask?
    ensures Honest(s, c, Step(s, c).reply)
  {}

  lemma ClaimRefusal(s: State, c: Command)
    requires c.ClaimTask?
    ensures Honest(s, c, Step(s, c).reply)
  {
    if FreshClaim(s, c) {
      FreshRefusal(s, c);
    }
  }

  lemma FreshRefusal(s: State, c: Command)
    requires FreshClaim(s, c)
    ensures Honest(s, c, Step(s, c).reply)
  {
    var ns := ClaimNamespace(s, c);
    ReadyAreCandidates(s, c, ns);
    if !CanRequeue(s.tasks, ClaimExpired(s, c)) {
      var t :| t in ClaimExpired(s, c) && s.tasks[t].revision >= U64_MAX;
      assert Candidate(s, ns, c.now, t);
    } else if ClaimReady(s, c) != {} {
      var k := MinKey(ClaimReady(s, c));
      assert Candidate(s, ns, c.now, k.id);
    }
    hide QueuedKeys, LeaseHolders;
  }

  lemma PresenceRefusal(s: State, c: Command)
    requires c.JoinGroup? || c.Heartbeat?
    ensures Honest(s, c, Step(s, c).reply)
  {}

  lemma LeaveRefusal(s: State, c: Command)
    requires c.LeaveGroup?
    ensures Honest(s, c, Step(s, c).reply)
  {}

  lemma ReapRefusal(s: State, c: Command)
    requires c.ReapStaleMembers?
    ensures Honest(s, c, Step(s, c).reply)
  {
    hide FirstN, StaleKeys;
  }

  lemma CatalogRefusal(s: State, c: Command)
    requires c.EnsureNamespace? || c.PublishTask? || c.EnsureGroup? || c.PruneCompleted? || c.AdvanceTerm?
    ensures Honest(s, c, Step(s, c).reply)
  {
    hide FirstN, CompletedKeys;
    if c.PublishTask? {
      assert InNamespace(s.tasks, c.ns) == set t | t in s.tasks && s.tasks[t].ns == c.ns;
    }
    if c.EnsureGroup? {
      assert GroupsInNamespace(s.groups, c.ns) == set g | g in s.groups && s.groups[g].ns == c.ns;
    }
  }

  /** A Broker whose indexes agree refuses no command without cause: what its error says is so. */
  lemma RefusalsAreTrue(m: Machine, c: Command)
    requires Coherent(m)
    ensures Honest(m.state, c, Exec(m, c).reply)
  {
    hide Exec, Coherent, Step, Honest;
    ExecRefines(m, c);
    if c.ClaimTask? {
      ClaimRefusal(m.state, c);
    } else if c.RenewLease? {
      RenewRefusal(m.state, c);
    } else if c.CompleteTask? {
      CompleteRefusal(m.state, c);
    } else if c.JoinGroup? || c.Heartbeat? {
      PresenceRefusal(m.state, c);
    } else if c.LeaveGroup? {
      LeaveRefusal(m.state, c);
    } else if c.ReapStaleMembers? {
      ReapRefusal(m.state, c);
    } else {
      CatalogRefusal(m.state, c);
    }
  }
}
