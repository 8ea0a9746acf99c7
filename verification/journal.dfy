/** Change sets and the incremental journal that makes them durable.

    A checkpoint is held here as the state it represents: the journal keeps its checkpoint sorted and
    free of duplicates, and `Rebuilding.RoundTrip` says that such checkpoints and restorable states
    are the same thing. */
module Journals {
  import opened Order
  import opened Tasks
  import opened Groups
  import opened BrokerState
  import opened ClaimRefinement
  import opened Refinement
  import opened Soundness
  import opened Checkpoints
  import opened Rebuilding
  import opened Entries
  import opened Fencing
  import opened Runs
  import opened Membership

  datatype Mutation = Mutation(
    term: nat, revision: nat, namespaces: map<nat, nat>, tasks: map<nat, Task>,
    deleted: set<nat>, groups: map<nat, Group>)

  datatype StorageError =
    | UpdatesAndDeletes | MissingChanged(missing: Entity) | RevisionGap(expected: nat, actual: nat)
    | BackwardTerm(current: nat, incoming: nat) | RevisionRollback(entity: Entity)
    | InvalidCheckpoint(cause: CheckpointError)
    | RecordTooLong | AccountingOverflow | IoFailure

  /** The journal record of one change set: the changed records as they are now. */
  function EncodeMutation(s: State, ch: Changes): Result<Mutation, StorageError> {
    if ch.deleted * ch.tasks != {} then Err(UpdatesAndDeletes)
    else if !(ch.namespaces <= s.namespaces.Keys) then Err(MissingChanged(NamespaceEntity))
    else if !(ch.tasks <= s.tasks.Keys) then Err(MissingChanged(TaskEntity))
    else if !(ch.groups <= s.groups.Keys) then Err(MissingChanged(GroupEntity))
    else Ok(Mutation(s.term, s.revision, map n | n in ch.namespaces :: s.namespaces[n],
                     map t | t in ch.tasks :: s.tasks[t],
                     ch.deleted, map g | g in ch.groups :: s.groups[g]))
  }

  /** Upsert the changed records, drop the deleted Tasks, take over term and revision. */
  function Patch(s: State, mu: Mutation): State {
    State(mu.term, mu.revision, s.namespaces + mu.namespaces, (s.tasks + mu.tasks) - mu.deleted, s.groups + mu.groups)
  }

  predicate NoRollback(s: State, mu: Mutation) {
    && (forall n | n in mu.namespaces && n in s.namespaces :: s.namespaces[n] <= mu.namespaces[n])
    && (forall g | g in mu.groups && g in s.groups :: s.groups[g].revision <= mu.groups[g].revision)
    && (forall t | t in mu.tasks && t in s.tasks :: s.tasks[t].revision <= mu.tasks[t].revision)
  }

  function Rollback(s: State, mu: Mutation): Entity {
    if exists n | n in mu.namespaces && n in s.namespaces :: s.namespaces[n] > mu.namespaces[n] then NamespaceEntity
    else if exists g | g in mu.groups && g in s.groups :: s.groups[g].revision > mu.groups[g].revision then GroupEntity
    else TaskEntity
  }

  /** Apply one record to a checkpoint; the flag says whether it was new. */
  function ApplyMutation(s: State, mu: Mutation): Result<(State, bool), StorageError> {
    if mu.revision <= s.revision then Ok((s, false))
    else if mu.revision != s.revision + 1 then Err(RevisionGap(s.revision + 1, mu.revision))
    else if mu.term < s.term then Err(BackwardTerm(s.term, mu.term))
    else if !NoRollback(s, mu) then Err(RevisionRollback(Rollback(s, mu)))
    else
      match FromCheckpoint(Export(Patch(s, mu)))
      case Err(e) => Err(InvalidCheckpoint(e))
      case Ok(_) => Ok((Patch(s, mu), true))
  }

  /** A record is accepted exactly if it is old, or is the next one, turns back neither term nor any
      record, and leads to a state that can be restored; an old one changes nothing. */
  lemma RecordsAreChecked(s: State, mu: Mutation)
    ensures
      var r := ApplyMutation(s, mu);
      && (r.Ok? <==>
            || mu.revision <= s.revision
            || (&& mu.revision == s.revision + 1 && s.term <= mu.term && NoRollback(s, mu)
                && Restorable(Patch(s, mu))))
      && (r.Ok? ==> r.value == if mu.revision <= s.revision then (s, false) else (Patch(s, mu), true))
  {
    RoundTrip(Patch(s, mu));
    hide FromCheckpoint, Export, Restorable, Patch, NoRollback, Rollback;
  }

  function Replay(s: State, journal: seq<Mutation>): Result<State, StorageError>
    decreases |journal|
  {
    if journal == [] then Ok(s)
    else
      match ApplyMutation(s, journal[0])
      case Err(e) => Err(e)
      case Ok((s', _)) => Replay(s', journal[1..])
  }

  // ---- Change sets are exact ----

  /** The record of the change set, applied to the old state, is the new state. */
  predicate Exact(s: State, s': State, ch: Changes) {
    EncodeMutation(s', ch).Ok? && Patch(s, EncodeMutation(s', ch).value) == s'
  }

  predicate Counted(s: State, s': State) {
    if s' == s then s'.revision == s.revision else s'.revision == s.revision + 1
  }

  /** Two maps differ only in the entries named, all of which the second one has. */
  ghost predicate Differ<V(!new)>(a: map<nat, V>, b: map<nat, V>, ids: set<nat>) {
    ids <= b.Keys && b.Keys == a.Keys + ids && forall k | k in a && k !in ids :: b[k] == a[k]
  }

  lemma DifferOne<V(!new)>(a: map<nat, V>, k: nat, v: V)
    ensures Differ(a, a[k := v], {k})
  {}

  ghost predicate DifferOnly(s: State, s': State, ch: Changes) {
    && ch.deleted == {} && Differ(s.namespaces, s'.namespaces, ch.namespaces)
    && Differ(s.tasks, s'.tasks, ch.tasks) && Differ(s.groups, s'.groups, ch.groups)
  }

  lemma DifferOnlyExact(s: State, s': State, ch: Changes)
    requires DifferOnly(s, s', ch)
    ensures Exact(s, s', ch)
  {}

  lemma RequeueDiffers(tasks: map<nat, Task>, ids: set<nat>)
    requires AllLeased(tasks, ids)
    ensures Differ(tasks, RequeueAll(tasks, ids), ids)
  {}

  lemma NothingDiffers(s: State)
    ensures Differ(s.namespaces, s.namespaces, {}) && Differ(s.tasks, s.tasks, {}) && Differ(s.groups, s.groups, {})
    ensures DifferOnly(s, s, NoChanges)
  {}

  lemma ClaimDiffers(s: State, c: Command)
    requires c.ClaimTask?
    ensures DifferOnly(s, ClaimStep(s, c).state, ClaimStep(s, c).changes) && Counted(s, ClaimStep(s, c).state)
  {
    NothingDiffers(s);
    if Grants(s, c) {
      ClaimStepGrants(s, c);
      var t := MinKey(ClaimReady(s, c)).id;
      RequeueDiffers(s.tasks, ClaimExpired(s, c));
      assert Differ(s.tasks, ClaimTasks(s, c)[t := LeasedBy(s, c)], ClaimExpired(s, c) + {t});
    }
    hide Differ;
  }

  lemma LeaveDiffers(s: State, group: nat, member: nat, generation: nat)
    ensures
      var o := LeaveStep(s, group, member, generation);
      DifferOnly(s, o.state, o.changes) && Counted(s, o.state)
  {
    hide Differ, RequeueAll;
    NothingDiffers(s);
    RequeueDiffers(s.tasks, HeldTasks(s.tasks, group, member));
    if group in s.groups {
      DifferOne(s.groups, group, Without(s.groups[group], {member}));
    }
  }

  lemma ReapDiffers(s: State, before: nat, max: nat)
    ensures
      var o := ReapStep(s, before, max);
      DifferOnly(s, o.state, o.changes) && Counted(s, o.state)
  {
    hide Differ, RequeueAll, FirstN, StaleKeys, ReapAll;
    NothingDiffers(s);
    var selected := FirstN(StaleKeys(s.groups, before), max);
    RequeueDiffers(s.tasks, HeldByAny(s.tasks, selected));
    AffectedExist(s.groups, before, selected);
    ReapAllDiffers(s.groups, selected);
  }

  lemma ReapAllDiffers(groups: map<nat, Group>, selected: set<Key>)
    requires AffectedGroups(selected) <= groups.Keys
    ensures Differ(groups, ReapAll(groups, selected), AffectedGroups(selected))
  {}

  lemma AffectedExist(groups: map<nat, Group>, before: nat, selected: set<Key>)
    requires selected <= StaleKeys(groups, before)
    ensures AffectedGroups(selected) <= groups.Keys
  {}

  lemma ForgetExact(s: State, doomed: set<nat>, revision: nat)
    ensures Exact(s, s.(tasks := s.tasks - doomed, revision := revision), NoChanges.(deleted := doomed))
  {}

  lemma PruneExact(s: State, cutoff: nat, max: nat)
    ensures
      var o := PruneStep(s, cutoff, max);
      Exact(s, o.state, o.changes) && Counted(s, o.state)
  {
    hide FirstN, CompletedKeys, Members, Exact;
    NothingDiffers(s);
    DifferOnlyExact(s, s, NoChanges);
    ForgetExact(s, Members(FirstN(CompletedKeys(s.tasks, cutoff), max)), s.revision + 1);
  }

  /** For every command: patching the old state with the records named in the change set gives
      exactly the new state, and the revision rises, by one, exactly when the state changed. */
  lemma ChangeSetExact(s: State, c: Command)
    ensures
      var o := Step(s, c);
      Exact(s, o.state, o.changes) && Counted(s, o.state)
  {
    hide Exact;
    if c.PruneCompleted? {
      PruneExact(s, c.completedBefore, c.maxPruned);
    } else {
      OthersDiffer(s, c);
      DifferOnlyExact(s, Step(s, c).state, Step(s, c).changes);
    }
  }

  lemma TaskDiffers(s: State, c: Command)
    requires c.RenewLease? || c.CompleteTask?
    ensures DifferOnly(s, Step(s, c).state, Step(s, c).changes) && Counted(s, Step(s, c).state)
  {
    hide Differ, RenewStep, CompleteStep;
    NothingDiffers(s);
    if c.RenewLease? {
      RenewStepIs(s, c);
      if RenewStep(s, c).reply.Ok? {
        DifferOne(s.tasks, c.task, RenewedTask(s.tasks[c.task], c.now + c.duration));
      }
    } else {
      CompleteStepIs(s, c);
      if Completes(s, c) {
        DifferOne(s.tasks, c.task, CompletedTask(s.tasks[c.task], c));
      }
    }
  }

  lemma GroupDiffers(s: State, c: Command)
    requires c.EnsureGroup? || c.JoinGroup? || c.Heartbeat?
    ensures DifferOnly(s, Step(s, c).state, Step(s, c).changes) && Counted(s, Step(s, c).state)
  {
    hide Differ, GroupsInNamespace;
    NothingDiffers(s);
    if c.group in Step(s, c).state.groups {
      DifferOne(s.groups, c.group, Step(s, c).state.groups[c.group]);
    }
  }

  lemma OthersDiffer(s: State, c: Command)
    requires !c.PruneCompleted?
    ensures DifferOnly(s, Step(s, c).state, Step(s, c).changes) && Counted(s, Step(s, c).state)
  {
    hide Differ, InNamespace, ClaimStep, ReapStep, LeaveStep, RenewStep, CompleteStep, EnsureGroupSpec, JoinStep,
      HeartbeatStep;
    NothingDiffers(s);
    match c
    case ClaimTask(_, _, _, _, _, _, _) => ClaimDiffers(s, c);
    case ReapStaleMembers(before, max) => ReapDiffers(s, before, max);
    case LeaveGroup(g, member, generation) => LeaveDiffers(s, g, member, generation);
    case RenewLease(_, _, _, _, _, _, _, _, _) => TaskDiffers(s, c);
    case CompleteTask(_, _, _, _, _, _, _, _, _) => TaskDiffers(s, c);
    case EnsureNamespace(ns, _) => DifferOne(s.namespaces, ns, 1);
    case PublishTask(_, _, _, _, _) => DifferOne(s.tasks, c.task, NewTask(c.ns, c.objective, c.createdAt));
    case EnsureGroup(_, _, _) => GroupDiffers(s, c);
    case JoinGroup(_, _, _, _, _) => GroupDiffers(s, c);
    case Heartbeat(_, _, _, _) => GroupDiffers(s, c);
    case AdvanceTerm(_, _) =>
  }

  // ---- Every record the Broker writes is accepted on replay ----

  lemma GroupRevisionStep(s: State, c: Command, g: nat)
    requires g in s.groups
    ensures g in Step(s, c).state.groups && s.groups[g].revision <= Step(s, c).state.groups[g].revision
  {
    hide Step;
    StepGroupLaw(s, c, g);
  }

  lemma TaskRevisionStep(s: State, c: Command, t: nat)
    requires t in s.tasks && t in Step(s, c).state.tasks
    ensures s.tasks[t].revision <= Step(s, c).state.tasks[t].revision
  {
    StepLawful(s, c, t);
    hide Step, Renews, Completes;
  }

  lemma TermStep(s: State, c: Command)
    ensures s.term <= Step(s, c).state.term
    ensures forall n | n in s.namespaces ::
              n in Step(s, c).state.namespaces && Step(s, c).state.namespaces[n] == s.namespaces[n]
  {
    hide FirstN, StaleKeys, RequeueAll, HeldByAny, CompletedKeys;
  }

  /** The journal record that a command writes. */
  function RecordFor(s: State, c: Command): Mutation {
    var o := Step(s, c);
    match EncodeMutation(o.state, o.changes)
    case Ok(mu) => mu
    case Err(_) => Mutation(o.state.term, o.state.revision, map[], map[], {}, map[])
  }

  lemma EncodedIs(s': State, ch: Changes)
    requires EncodeMutation(s', ch).Ok?
    ensures
      var mu := EncodeMutation(s', ch).value;
      && mu.term == s'.term && mu.revision == s'.revision
      && (forall n | n in mu.namespaces :: n in s'.namespaces && mu.namespaces[n] == s'.namespaces[n])
      && (forall t | t in mu.tasks :: t in s'.tasks && mu.tasks[t] == s'.tasks[t])
      && (forall g | g in mu.groups :: g in s'.groups && mu.groups[g] == s'.groups[g])
  {}

  lemma NothingRollsBack(s: State, c: Command, mu: Mutation)
    requires Sound(s) && EncodeMutation(Step(s, c).state, Step(s, c).changes) == Ok(mu)
    ensures NoRollback(s, mu)
  {
    var s' := Step(s, c).state;
    EncodedIs(s', Step(s, c).changes);
    TermStep(s, c);
    hide Step, EncodeMutation;
    forall t | t in mu.tasks && t in s.tasks ensures s.tasks[t].revision <= mu.tasks[t].revision {
      TaskRevisionStep(s, c, t);
    }
    forall g | g in mu.groups && g in s.groups ensures s.groups[g].revision <= mu.groups[g].revision {
      GroupRevisionStep(s, c, g);
    }
  }

  /** Replaying the record of a command that changed the state redoes exactly that change. */
  lemma RecordAccepted(s: State, c: Command)
    requires Sound(s) && Step(s, c).state != s
    ensures EncodeMutation(Step(s, c).state, Step(s, c).changes) == Ok(RecordFor(s, c))
    ensures ApplyMutation(s, RecordFor(s, c)) == Ok((Step(s, c).state, true))
  {
    ChangeSetExact(s, c);
    var mu := RecordFor(s, c);
    EncodedIs(Step(s, c).state, Step(s, c).changes);
    NothingRollsBack(s, c, mu);
    TermStep(s, c);
    StepSound(s, c);
    RoundTrip(Step(s, c).state);
    hide Step, EncodeMutation, NoRollback, FromCheckpoint, Export, Patch, AllOwned, Restorable;
  }

  /** The records of the state-changing commands of a run, in order. */
  function JournalOf(s: State, log: seq<Command>): seq<Mutation>
    decreases |log|
  {
    if log == [] then []
    else
      var s' := Step(s, log[0]).state;
      (if s' == s then [] else [RecordFor(s, log[0])]) + JournalOf(s', log[1..])
  }

  /** Replaying the journal of a run gives the state at its end. */
  lemma {:induction false} ReplayIsRun(s: State, log: seq<Command>)
    requires Sound(s)
    ensures Replay(s, JournalOf(s, log)) == Ok(StateAfter(s, log))
    decreases |log|
  {
    hide Sound, Step, RecordFor, ApplyMutation;
    if log != [] {
      var s' := Step(s, log[0]).state;
      StepSound(s, log[0]);
      ReplayIsRun(s', log[1..]);
      if s' != s {
        RecordAccepted(s, log[0]);
        assert JournalOf(s, log) == [RecordFor(s, log[0])] + JournalOf(s', log[1..]);
      } else {
        assert JournalOf(s, log) == JournalOf(s', log[1..]);
      }
    }
  }

  predicate AllAtMost(journal: seq<Mutation>, revision: nat) {
    forall mu | mu in journal :: mu.revision <= revision
  }

  /** Records at or below the snapshot's revision are ignored. */
  lemma {:induction false} StaleRecordsIgnored(s: State, journal: seq<Mutation>)
    requires AllAtMost(journal, s.revision)
    ensures Replay(s, journal) == Ok(s)
  {
    if journal != [] {
      assert journal[0] in journal;
      StaleRecordsIgnored(s, journal[1..]);
    }
  }

  lemma {:induction false} ReplayAppend(s: State, journal: seq<Mutation>, mu: Mutation)
    requires Replay(s, journal).Ok?
    ensures Replay(s, journal + [mu]) ==
              match ApplyMutation(Replay(s, journal).value, mu) { case Err(e) => Err(e) case Ok((s', _)) => Ok(s') }
    decreases |journal|
  {
    hide ApplyMutation;
    if journal == [] {
      assert journal + [mu] == [mu];
      assert [mu][1..] == [];
    } else {
      assert (journal + [mu])[1..] == journal[1..] + [mu];
      ReplayAppend(ApplyMutation(s, journal[0]).value.0, journal[1..], mu);
    }
  }
}
