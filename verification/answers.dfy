/** What every command is answered, and when it is accepted, said of the records before and after it:
    for the lease commands first, then for groups, Tasks and terms. */
module Answers {
  import opened Order
  import opened Tasks
  import opened BrokerState
  import opened BrokerMachine
  import opened Coherence
  import opened ClaimRefinement
  import opened Refinement
  import opened Membership
  import opened Fencing
  import opened Runs
  import opened Integrity
  import opened Ownership

  /** The answer carries the term and revision of the state it leaves. */
  predicate Dated(meta: Meta, s: State) {
    meta.term == s.term && meta.revision == s.revision
  }

  /** The caller is a member of the group at its current generation, and knows the term. */
  predicate Admitted(s: State, c: Command)
    requires c.ClaimTask? || c.RenewLease? || c.CompleteTask?
  {
    && s.term == c.expectedTerm && c.group in s.groups && s.groups[c.group].generation == c.expectedGeneration
    && c.member in s.groups[c.group].consumers
  }

  // ---- Claim ----

  /** The answer names Task `t` and every field of its record. */
  predicate Describes(r: Reply, s: State, t: nat) {
    && r.ClaimReply? && t in s.tasks && s.tasks[t].state.Leased?
    && var task := s.tasks[t];
       && r.claimed == Some(t) && r.objective == Some(task.objective) && r.claimedRevision == Some(task.revision)
       && r.leaseId == Some(task.state.lease.leaseId) && r.leaseEpoch == Some(task.state.lease.epoch)
       && r.expiresAt == Some(task.state.lease.expiresAt)
  }

  predicate NamesNothing(r: Reply) {
    && r.ClaimReply? && r.claimed.None? && r.objective.None? && r.claimedRevision.None? && r.leaseId.None?
    && r.leaseEpoch.None? && r.expiresAt.None?
  }

  /** Task `t` is leased under this id to this member. */
  predicate LeasedTo(s: State, t: nat, lease: nat, group: nat, member: nat) {
    && t in s.tasks && s.tasks[t].state.Leased? && s.tasks[t].state.lease.leaseId == lease
    && s.tasks[t].state.lease.group == group && s.tasks[t].state.lease.owner == member
  }

  ghost predicate NobodyHolds(s: State, lease: nat) {
    forall t :: t in s.tasks && s.tasks[t].state.Leased? ==> s.tasks[t].state.lease.leaseId != lease
  }

  /** The answer to an accepted claim is the lease that the claimant has then, or that it has none. */
  ghost predicate ClaimAnswered(c: Command, reply: Result<Reply, Error>, s': State) {
    && c.ClaimTask?
    && (reply.Ok? ==>
          var r := reply.value;
          && r.ClaimReply? && Dated(r.meta, s') && r.generation == c.expectedGeneration
          && match r.claimed
             case Some(t) => Describes(r, s', t) && LeasedTo(s', t, c.lease, c.group, c.member)
             case None => NamesNothing(r) && NobodyHolds(s', c.lease))
  }

  lemma LendAnswers(m: Machine, c: Command, ns: nat, t: nat)
    requires c.ClaimTask?
    ensures ClaimAnswered(c, GrantLease(m, c, ns, t).reply, GrantLease(m, c, ns, t).m.state)
  {
    hide Push, AddHeld;
  }

  lemma NotActiveNotHeld(m: Machine, lease: nat)
    requires Covered(m, {}) && lease !in m.active
    ensures NobodyHolds(m.state, lease)
  {}

  lemma NoClaimAnswers(m: Machine, c: Command, s: State)
    requires c.ClaimTask? && NobodyHolds(m.state, c.lease) && s.tasks == m.state.tasks && s.term == m.state.term
    ensures ClaimAnswered(c, Ok(NoClaim(s, c.expectedGeneration)), s)
  {}

  lemma FreshAnswers(m: Machine, c: Command, ns: nat)
    requires c.ClaimTask? && Covered(m, {}) && c.lease !in m.active
    ensures ClaimAnswered(c, ClaimFresh(m, c, ns).reply, ClaimFresh(m, c, ns).m.state)
  {
    hide RecoverExpired, PopReady, GrantLease, HeapAt, Covered, NoClaim, NobodyHolds, Dated, Describes;
    RecoverCovered(m, ns, c.now);
    var rec := RecoverExpired(m, ns, c.now);
    var (heap, popped) := PopReady(HeapAt(rec.m.ready, ns), rec.m.state.tasks);
    var m' := if ns in rec.m.ready then rec.m.(ready := rec.m.ready[ns := heap]) else rec.m;
    NotActiveNotHeld(rec.m, c.lease);
    if rec.failed.None? {
      if popped.Some? {
        LendAnswers(m', c, ns, popped.value);
      } else {
        NoClaimAnswers(rec.m, c, ClaimFresh(m, c, ns).m.state);
      }
    }
  }

  lemma RepeatAnswers(m: Machine, c: Command)
    requires c.ClaimTask? && Covered(m, {}) && c.lease in m.active
    ensures ClaimAnswered(c, ClaimRun(m, c).reply, ClaimRun(m, c).m.state)
  {
    hide ClaimFresh, HeldCovers, ActiveCovers;
  }

  /** Every accepted claim, of any machine in which leases are found under their ids, is answered with the
      claimant's own lease, field by field as it is recorded then, or with nothing if it has none. */
  lemma ClaimAnswers(m: Machine, c: Command)
    requires c.ClaimTask? && Covered(m, {})
    ensures ClaimAnswered(c, Exec(m, c).reply, Exec(m, c).m.state)
  {
    hide ClaimFresh, Covered, Describes, NobodyHolds, Dated;
    var m' := m.(changes := NoChanges);
    SameCovered(m, m', {});
    if c.lease in m.active {
      RepeatAnswers(m', c);
    } else if c.group in m.state.groups {
      FreshAnswers(m', c, m.state.groups[c.group].ns);
    }
  }

  /** The claim found its lease id in use and changed nothing: whoever holds the lease is told so again, and
      anybody else admitted is refused. */
  ghost predicate ClaimedAgain(s: State, c: Command, t: nat, s': State, reply: Result<Reply, Error>) {
    && c.ClaimTask? && s' == s
    && if LeasedTo(s, t, c.lease, c.group, c.member) then
         reply.Ok? && reply.value.ClaimReply? && reply.value.claimed == Some(t) && ClaimAnswered(c, reply, s)
       else reply == Err(LeaseIdConflict(c.lease))
  }

  lemma ClaimAgain(m: Machine, c: Command, t: nat)
    requires c.ClaimTask? && Covered(m, {}) && Admitted(m.state, c)
    requires t in m.state.tasks && m.state.tasks[t].state.Leased? && m.state.tasks[t].state.lease.leaseId == c.lease
    ensures ClaimedAgain(m.state, c, t, Exec(m, c).m.state, Exec(m, c).reply)
  {
    hide ClaimFresh, HeldCovers, ClaimAnswered;
    ClaimAnswers(m, c);
  }

  /** So it is in every run from an empty Broker. */
  lemma EveryClaimAnswers(log: seq<Command>, c: Command)
    requires c.ClaimTask?
    ensures ClaimAnswered(c, Exec(After(EmptyMachine, log), c).reply, Exec(After(EmptyMachine, log), c).m.state)
  {
    hide Exec, After, Covered, ClaimAnswered;
    EmptyIsKept();
    RunKept(EmptyMachine, log);
    KeptCovered(After(EmptyMachine, log));
    ClaimAnswers(After(EmptyMachine, log), c);
  }

  lemma KeptCovered(m: Machine)
    requires Kept(m)
    ensures Covered(m, {})
  {}

  // ---- Renew and complete ----

  /** The fence names every field of the Task's live lease, before its deadline. */
  predicate Live(task: Task, lease: nat, member: nat, group: nat, generation: nat, epoch: nat, at: nat) {
    && task.state.Leased? && task.state.lease.leaseId == lease && task.state.lease.owner == member
    && task.state.lease.group == group && task.state.lease.generation == generation
    && task.state.lease.epoch == epoch && at < task.state.lease.expiresAt
  }

  /** The Task with one more revision and another deadline. */
  predicate Extended(a: Task, b: Task, deadline: nat) {
    && a.state.Leased? && b.state.Leased?
    && b.ns == a.ns && b.objective == a.objective && b.createdAt == a.createdAt && b.revision == a.revision + 1
    && b.state.lease == a.state.lease.(expiresAt := deadline)
  }

  /** A renewal is accepted exactly if it presents the live lease before its deadline and no counter is
      exhausted; then only the deadline moves, and the answer is the record it leaves. */
  predicate Renewed(s: State, c: Command, s': State, reply: Result<Reply, Error>) {
    && c.RenewLease?
    && (reply.Ok? <==>
          && Admitted(s, c) && c.now + c.duration <= U64_MAX && s.revision < U64_MAX && c.task in s.tasks
          && Live(s.tasks[c.task], c.lease, c.member, c.group, c.expectedGeneration, c.expectedEpoch, c.now)
          && s.tasks[c.task].revision < U64_MAX)
    && (reply.Err? ==> s' == s)
    && (reply.Ok? ==>
          && c.task in s.tasks && c.task in s'.tasks
          && Extended(s.tasks[c.task], s'.tasks[c.task], c.now + c.duration)
          && s' == s.(tasks := s.tasks[c.task := s'.tasks[c.task]], revision := s.revision + 1)
          && var r, task := reply.value, s'.tasks[c.task];
             && r.RenewedReply? && Dated(r.meta, s') && r.task == c.task && r.taskRevision == task.revision
             && r.lease == task.state.lease.leaseId && r.epoch == task.state.lease.epoch
             && r.deadline == task.state.lease.expiresAt && r.generation == task.state.lease.generation)
  }

  lemma RenewStepAnswers(s: State, c: Command)
    requires c.RenewLease?
    ensures Renewed(s, c, Step(s, c).state, Step(s, c).reply)
  {
    hide ClaimStep, CompleteStep, LeaveStep, ReapStep, PruneStep, PublishSpec, EnsureGroupSpec, JoinStep, HeartbeatStep;
  }

  /** So it is of any machine. */
  lemma RenewAnswers(m: Machine, c: Command)
    requires c.RenewLease?
    ensures Renewed(m.state, c, Exec(m, c).m.state, Exec(m, c).reply)
  {
    hide Exec, Step, Renewed;
    IndexFree(m, c);
    RenewStepAnswers(m.state, c);
  }

  /** The Task with its lease turned into a completion. */
  predicate Finishes(a: Task, b: Task, result: nat, at: nat) {
    && a.state.Leased? && b.state.Completed?
    && b.ns == a.ns && b.objective == a.objective && b.createdAt == a.createdAt && b.revision == a.revision + 1
    && var l, d := a.state.lease, b.state.done;
       && d.leaseId == l.leaseId && d.owner == l.owner && d.group == l.group && d.generation == l.generation
       && d.epoch == l.epoch && d.result == result && d.completedAt == at
  }

  /** A completed Task answers whoever repeats its lease id and result, at any time, and refuses everybody
      else; a leased one is completed exactly by its live fence. */
  predicate Completes(s: State, c: Command, s': State, reply: Result<Reply, Error>) {
    && c.CompleteTask? && (reply.Err? ==> s' == s)
    && (reply.Ok? ==>
          && Admitted(s, c) && s.revision < U64_MAX && c.task in s.tasks
          && c.task in s'.tasks && s'.tasks[c.task].state.Completed?
          && reply.value.CompletedReply? && Dated(reply.value.meta, s') && reply.value.task == c.task
          && reply.value.taskRevision == s'.tasks[c.task].revision && reply.value.status.StatusCompleted?)
    && (Admitted(s, c) && s.revision < U64_MAX && c.task in s.tasks ==>
          var task := s.tasks[c.task];
          if task.state.Completed? then
            && s' == s
            && (reply.Ok? <==> task.state.done.leaseId == c.lease && task.state.done.result == c.result)
            && (reply.Err? ==> reply.error == TaskTransition(AlreadyCompleted))
          else
            && (reply.Ok? <==>
                  && Live(task, c.lease, c.member, c.group, c.expectedGeneration, c.expectedEpoch, c.completedAt)
                  && task.revision < U64_MAX)
            && (reply.Ok? ==>
                  && Finishes(task, s'.tasks[c.task], c.result, c.completedAt)
                  && s' == s.(tasks := s.tasks[c.task := s'.tasks[c.task]], revision := s.revision + 1)))
  }

  lemma CompleteStepAnswers(s: State, c: Command)
    requires c.CompleteTask?
    ensures Completes(s, c, Step(s, c).state, Step(s, c).reply)
  {
    hide ClaimStep, RenewStep, LeaveStep, ReapStep, PruneStep, PublishSpec, EnsureGroupSpec, JoinStep, HeartbeatStep;
  }

  /** So it is of any machine. */
  lemma CompleteAnswers(m: Machine, c: Command)
    requires c.CompleteTask?
    ensures Completes(m.state, c, Exec(m, c).m.state, Exec(m, c).reply)
  {
    hide Exec, Step, Completes;
    IndexFree(m, c);
    CompleteStepAnswers(m.state, c);
  }

  /** However long ago and whatever was committed since, a retained completion is recognised by its lease
      id and result alone. */
  predicate Recognised(task: Task, c: Command, m: Machine, r: Ran) {
    && c.CompleteTask? && task.state.Completed? && r.m == m.(changes := NoChanges)
    && if task.state.done.leaseId == c.lease && task.state.done.result == c.result then
         && r.reply.Ok? && r.reply.value.CompletedReply? && Dated(r.reply.value.meta, m.state)
         && r.reply.value.task == c.task && r.reply.value.taskRevision == task.revision
         && r.reply.value.status.StatusCompleted?
       else r.reply == Err(TaskTransition(AlreadyCompleted))
  }

  lemma CompletionRecognised(m: Machine, log: seq<Command>, c: Command)
    requires c.CompleteTask? && Survives(m, log, c.task) && m.state.tasks[c.task].state.Completed?
    requires Admitted(After(m, log).state, c) && After(m, log).state.revision < U64_MAX
    ensures Recognised(m.state.tasks[c.task], c, After(m, log), Exec(After(m, log), c))
  {
    hide Exec, Step, After, Survives, Admitted, Dated;
    CompletionIsFinal(m, log, c.task);
    var m' := After(m, log);
    CompleteStepAnswers(m'.state, c);
    RecognisedChangesNothing(m'.state, c);
    PowerlessExec(m', c);
  }

  lemma RecognisedChangesNothing(s: State, c: Command)
    requires c.CompleteTask? && c.task in s.tasks && s.tasks[c.task].state.Completed?
    ensures Step(s, c).changes == NoChanges
  {
    hide Admit;
  }

  // ---- From a claim to a renewal or completion ----

  lemma {:induction false} SameGenerationSameMembers(m: Machine, log: seq<Command>, g: nat)
    requires g in m.state.groups
    ensures g in After(m, log).state.groups && m.state.groups[g].generation <= After(m, log).state.groups[g].generation
    ensures After(m, log).state.groups[g].generation == m.state.groups[g].generation ==>
              After(m, log).state.groups[g].consumers.Keys == m.state.groups[g].consumers.Keys
    decreases |log|
  {
    hide Exec;
    if log != [] {
      ExecGroupLaw(m, log[0], g);
      SameGenerationSameMembers(Exec(m, log[0]).m, log[1..], g);
    }
  }

  lemma ClaimAdmitted(m: Machine, c: Command)
    requires c.ClaimTask? && Exec(m, c).reply.Ok?
    ensures Admitted(m.state, c)
    ensures Exec(m, c).m.state.groups == m.state.groups && Exec(m, c).m.state.term == m.state.term
  {
    var m' := m.(changes := NoChanges);
    ClaimRunKeepsGroups(m', c);
    ClaimKeepsTerm(m', c);
    hide ClaimFresh;
  }

  lemma ClaimKeepsTerm(m: Machine, c: Command)
    requires c.ClaimTask?
    ensures ClaimRun(m, c).m.state.term == m.state.term
  {
    hide ClaimFresh;
    if c.group in m.state.groups {
      FreshKeepsTerm(m, c, m.state.groups[c.group].ns);
    }
  }

  lemma LendKeepsTerm(m: Machine, c: Command, ns: nat, t: nat)
    requires c.ClaimTask?
    ensures GrantLease(m, c, ns, t).m.state.term == m.state.term
  {
    hide Push, AddHeld, ClaimReplyOf;
  }

  lemma FreshKeepsTerm(m: Machine, c: Command, ns: nat)
    requires c.ClaimTask?
    ensures ClaimFresh(m, c, ns).m.state.term == m.state.term
  {
    hide RecoverExpired, PopReady, HeapAt, GrantLease;
    RecoverOnly(m, ns, c.now);
    var rec := RecoverExpired(m, ns, c.now);
    var (heap, popped) := PopReady(HeapAt(rec.m.ready, ns), rec.m.state.tasks);
    if popped.Some? {
      LendKeepsTerm(if ns in rec.m.ready then rec.m.(ready := rec.m.ready[ns := heap]) else rec.m, c, ns, popped.value);
    }
  }

  /** The renewal, and the completion, that a claimant builds from the answer to its claim. */
  function RenewalFrom(c: Command, r: Reply, now: nat, duration: nat): Command
    requires c.ClaimTask? && r.ClaimReply? && r.claimed.Some? && r.leaseEpoch.Some? && r.leaseId.Some?
  {
    BrokerState.Command.RenewLease(r.claimed.value, c.group, c.member, r.meta.term, r.generation, r.leaseEpoch.value,
                                   r.leaseId.value, now, duration)
  }

  function CompletionFrom(c: Command, r: Reply, result: nat, now: nat): Command
    requires c.ClaimTask? && r.ClaimReply? && r.claimed.Some? && r.leaseEpoch.Some? && r.leaseId.Some?
  {
    BrokerState.Command.CompleteTask(r.claimed.value, c.group, c.member, r.meta.term, r.generation, r.leaseEpoch.value,
                                     r.leaseId.value, result, now)
  }

  /** As long as term, generation and lease have not changed and no counter is exhausted, what is built
      from the answer to a claim is accepted up to the deadline in that answer, if and only if the lease
      was granted at the generation that the answer names. */
  lemma ClaimHonoured(m: Machine, c: Command, log: seq<Command>, t: nat, now: nat, duration: nat, result: nat)
    requires c.ClaimTask? && Covered(m, {}) && Exec(m, c).reply.Ok? && Exec(m, c).reply.value.ClaimReply?
    requires Exec(m, c).reply.value.claimed == Some(t)
    requires
      var s1, s2 := Exec(m, c).m.state, After(Exec(m, c).m, log).state;
      && s2.term == s1.term && c.group in s1.groups && c.group in s2.groups
      && s2.groups[c.group].generation == s1.groups[c.group].generation
      && t in s1.tasks && t in s2.tasks && s2.tasks[t] == s1.tasks[t]
      && s2.revision < U64_MAX && s2.tasks[t].revision < U64_MAX
    ensures
      var m2, r := After(Exec(m, c).m, log), Exec(m, c).reply.value;
      && r.leaseEpoch.Some? && r.leaseId.Some? && r.expiresAt.Some? && m2.state.tasks[t].state.Leased?
      && (now < r.expiresAt.value ==>
            && (now + duration <= U64_MAX ==>
                  (Exec(m2, RenewalFrom(c, r, now, duration)).reply.Ok? <==>
                   m2.state.tasks[t].state.lease.generation == r.generation))
            && (Exec(m2, CompletionFrom(c, r, result, now)).reply.Ok? <==>
                  m2.state.tasks[t].state.lease.generation == r.generation))
  {
    hide Exec, After, Covered;
    ClaimAnswers(m, c);
    ClaimAdmitted(m, c);
    var m1 := Exec(m, c).m;
    SameGenerationSameMembers(m1, log, c.group);
    var m2, r := After(m1, log), Exec(m, c).reply.value;
    RenewAnswers(m2, RenewalFrom(c, r, now, duration));
    CompleteAnswers(m2, CompletionFrom(c, r, result, now));
  }

  /** A lease that is newly granted is granted at the generation that the answer names. */
  lemma NewLeaseGeneration(m: Machine, c: Command, t: nat)
    requires c.ClaimTask? && c.lease !in m.active && Exec(m, c).reply.Ok? && Exec(m, c).reply.value.ClaimReply?
    requires Exec(m, c).reply.value.claimed == Some(t)
    ensures t in Exec(m, c).m.state.tasks && Exec(m, c).m.state.tasks[t].state.Leased?
    ensures Exec(m, c).m.state.tasks[t].state.lease.generation == Exec(m, c).reply.value.generation
  {
    hide RecoverExpired, PopReady, HeapAt, Push, AddHeld, Admit;
  }

  // ---- What a claim hands out ----

  predicate Expired(task: Task, now: nat) {
    task.state.Leased? && task.state.lease.expiresAt <= now
  }

  /** The Task can be handed out in the namespace: it is queued there, or its lease has run out. */
  predicate Candidate(s: State, ns: nat, now: nat, t: nat) {
    t in s.tasks && s.tasks[t].ns == ns && (s.tasks[t].state.Queued? || Expired(s.tasks[t], now))
  }

  /** No deadline or counter that the claim may have to advance is near its limit. */
  ghost predicate Plenty(s: State, c: Command, ns: nat)
    requires c.ClaimTask?
  {
    && c.now + c.duration <= U64_MAX && s.revision < U64_MAX
    && forall t :: Candidate(s, ns, c.now, t) ==> s.tasks[t].revision + 1 < U64_MAX && Epoch(s.tasks[t]) < U64_MAX
  }

  /** Older Tasks come first, and of those of one age the one with the smaller id. */
  predicate Before(s: State, t: nat, u: nat)
    requires t in s.tasks && u in s.tasks
  {
    s.tasks[t].createdAt < s.tasks[u].createdAt || (s.tasks[t].createdAt == s.tasks[u].createdAt && t < u)
  }

  /** The Task back in the queue with its epoch. */
  predicate PutBack(a: Task, b: Task) {
    && a.state.Leased? && b.ns == a.ns && b.objective == a.objective && b.createdAt == a.createdAt
    && b.revision == a.revision + 1 && b.state == Queued(a.state.lease.epoch)
  }

  /** The Task leased to the claimant under the next epoch. */
  predicate Lent(a: Task, b: Task, c: Command)
    requires c.ClaimTask?
  {
    && b.ns == a.ns && b.objective == a.objective && b.createdAt == a.createdAt
    && b.revision == a.revision + (if a.state.Queued? then 1 else 2)
    && b.state == Leased(Lease(c.lease, c.member, c.group, c.expectedGeneration, Epoch(a) + 1, c.now + c.duration))
  }

  lemma FreshFrom(s: State, c: Command)
    requires c.ClaimTask? && Admitted(s, c) && NobodyHolds(s, c.lease)
    ensures FreshClaim(s, c) && ClaimNamespace(s, c) == s.groups[c.group].ns
  {}

  lemma ReadyAreCandidates(s: State, c: Command, ns: nat)
    requires FreshClaim(s, c) && ns == ClaimNamespace(s, c)
    ensures forall k :: k in ClaimReady(s, c) <==>
                          Candidate(s, ns, c.now, k.id) && k == Key(s.tasks[k.id].createdAt, k.id, 0)
  {
    var tasks := RequeueAll(s.tasks, ClaimExpired(s, c));
    forall k ensures k in ClaimReady(s, c) <==>
                       Candidate(s, ns, c.now, k.id) && k == Key(s.tasks[k.id].createdAt, k.id, 0)
    {
      if k in ClaimReady(s, c) {
        assert k.id in tasks && tasks[k.id].state.Queued?;
      }
      if Candidate(s, ns, c.now, k.id) && k == Key(s.tasks[k.id].createdAt, k.id, 0) {
        assert k.id in tasks && tasks[k.id].state.Queued? && tasks[k.id].ns == ns;
      }
    }
  }

  lemma PlentyIsRoom(s: State, c: Command)
    requires FreshClaim(s, c) && Plenty(s, c, ClaimNamespace(s, c))
    ensures !ClaimOverflows(s, c)
  {
    var ns := ClaimNamespace(s, c);
    forall t | t in ClaimExpired(s, c) ensures s.tasks[t].revision < U64_MAX {
      assert Candidate(s, ns, c.now, t);
    }
    ReadyAreCandidates(s, c, ns);
    if ClaimReady(s, c) != {} {
      var k := MinKey(ClaimReady(s, c));
      assert Candidate(s, ns, c.now, k.id);
    }
  }

  /** The claim is accepted; it hands out the oldest Task that can be handed out, or nothing exactly if there
      is none; it puts every other expired lease of the namespace back, and touches nothing else. */
  ghost predicate HandsOut(s: State, c: Command, s': State, reply: Result<Reply, Error>) {
    && c.ClaimTask? && c.group in s.groups && reply.Ok? && reply.value.ClaimReply?
    && var ns := s.groups[c.group].ns;
       match reply.value.claimed
       case None => s' == s && forall t :: !Candidate(s, ns, c.now, t)
       case Some(t) =>
         && Candidate(s, ns, c.now, t) && s'.revision == s.revision + 1 && s'.tasks.Keys == s.tasks.Keys
         && s' == s.(tasks := s'.tasks, revision := s'.revision)
         && (forall u :: Candidate(s, ns, c.now, u) && u != t ==> Before(s, t, u))
         && Lent(s.tasks[t], s'.tasks[t], c)
         && (forall u :: u in s.tasks && u != t ==>
               if s.tasks[u].ns == ns && Expired(s.tasks[u], c.now) then PutBack(s.tasks[u], s'.tasks[u])
               else s'.tasks[u] == s.tasks[u])
  }

  /** An admitted claim under an unused lease id, with counters to spare. */
  ghost predicate Entitled(s: State, c: Command) {
    && c.ClaimTask? && Admitted(s, c) && NobodyHolds(s, c.lease)
    && c.group in s.groups && Plenty(s, c, s.groups[c.group].ns)
  }

  /** So it is of a Broker whose indexes agree. */
  lemma ClaimServes(m: Machine, c: Command)
    requires Coherent(m) && Entitled(m.state, c)
    ensures HandsOut(m.state, c, Exec(m, c).m.state, Exec(m, c).reply)
  {
    hide Exec, Coherent, NobodyHolds, Plenty, HandsOut;
    var s := m.state;
    FreshFrom(s, c);
    PlentyIsRoom(s, c);
    ExecRefines(m, c);
    if ClaimReady(s, c) == {} {
      NothingServed(s, c);
    } else {
      ServesOldest(s, c);
    }
  }

  lemma NothingServed(s: State, c: Command)
    requires FreshClaim(s, c) && !ClaimOverflows(s, c) && ClaimReady(s, c) == {}
    ensures HandsOut(s, c, Step(s, c).state, Step(s, c).reply)
  {
    var ns := ClaimNamespace(s, c);
    ReadyAreCandidates(s, c, ns);
    forall t ensures !Candidate(s, ns, c.now, t) {
      var k := Key(if t in s.tasks then s.tasks[t].createdAt else 0, t, 0);
      assert k !in ClaimReady(s, c);
    }
  }

  lemma ServesOldest(s: State, c: Command)
    requires FreshClaim(s, c) && !ClaimOverflows(s, c) && ClaimReady(s, c) != {}
    ensures HandsOut(s, c, Step(s, c).state, Step(s, c).reply)
  {
    var ns, k := ClaimNamespace(s, c), MinKey(ClaimReady(s, c));
    ReadyAreCandidates(s, c, ns);
    ClaimStepGrants(s, c);
    assert Candidate(s, ns, c.now, k.id);
    forall u | Candidate(s, ns, c.now, u) && u != k.id ensures Before(s, k.id, u) {
      assert Key(s.tasks[u].createdAt, u, 0) in ClaimReady(s, c);
    }
    hide ClaimStep, QueuedKeys, LeaseHolders, Admit;
  }
}
