# A verified model of the Agent Broker

The Broker keeps Tasks, namespaces and Consumer Groups in authoritative maps, speeds them up with derived
heaps and counters, replicates commands through Raft and remembers one outcome per client session. This
project models that core in Dafny and proves what it promises, and, where the code does not keep a promise,
exactly when it does.

## How the project is built

* `broker_state.dfy` says what each of the twelve commands means on the authoritative maps alone: a claim
  leases the least queued Task, a prune forgets the first completed ones, a reap removes the first stale
  members. `task.dfy` and `group.dfy` are the Task lifecycle and the Consumer Group.
* `broker_machine.dfy` says what the code does with its indexes, step by step and also when it fails half
  way. `broker.dfy` is the same as an object that is updated in place, loop by loop, and is proved equal to it.
  `progress.dfy` says that it never sets term or revision back.
* `coherence.dfy`, `claim.dfy`, `departure.dfy`, `prune.dfy` and `refinement.dfy` prove that the second computes
  the first and when the indexes keep agreeing with the maps.
* `soundness.dfy` is about every run of the index-free meaning. `fencing.dfy`, `membership.dfy`, `integrity.dfy` and
  `ownership.dfy` are laws over every run of the machine itself, hazards included; `atomicity.dfy` is about rejections.
* `answers.dfy`, `presence.dfy` and `catalog.dfy` say of every command when it is accepted, what records it leaves and
  what it answers, without the functions that compute these.
* `checkpoint.dfy`, `rebuild.dfy`, `entries.dfy`, `runs.dfy` and `replicas.dfy` are about checkpoints and replicas of one log;
  `hazards.dfy`, `exhaustion.dfy` and `divergence.dfy` about logs that are not safe.
* `journal.dfy` and `standalone.dfy` are the durable single-node Broker, `lifetime.dfy` its whole life with restarts.
* `sessions.dfy`, `raft.dfy`, `snapshot.dfy`, `nodes.dfy` and `responses.dfy` are the replicated state machine with its
  session table and snapshot container, and what every entry of a log is answered.
* `client.dfy`, `exactly_once.dfy` and `served.dfy` are the durable client store, its retry loop and the protocol end to
  end; `careful.dfy` and `overload.dfy` are about the answer of an overloaded server.
* `observation.dfy` and `log_store.dfy` are the published read-only view and the Raft log table.

`dafny verify dfyconfig.toml` checks everything.

## What does not hold as promised

* A claim is not atomic. It drains expired leases and pops a Task before it computes the deadline and advances
  the counters; if one of those overflows, the error is returned but an index entry is gone. `ExecRefines` and
  `FailureIsAtomic` say that this is the only exception; `OverflowStrays` says when authoritative state moved too,
  `RefusedYetChanged` is a concrete case, `StandaloneAdapter.Propose` says what that does to the durable image, and
  `OverflowDiverges` that replicas then give different replies.
* Expiration entries are keyed by (deadline, Task id, epoch) per namespace and outlive the lease they were made
  for. If a Task id is pruned and published again in another namespace, a new lease can coincide with an old
  entry there, and a claim in that namespace takes it away. `ExecRefines` names the condition exactly,
  `HomedLogIsSafe` shows that it needs a Task id in two namespaces, `HazardDiverges` that a replica rebuilt from a
  checkpoint, which has no old entries, then parts ways with the others on the next due claim there,
  `HazardAlwaysShows` that such a claim can always be made, and `ReplicasCanDiverge` is a concrete case.
* Lease ownership can be lost the same way: the claim that takes such a Task leases it to a member of another
  namespace (`OwnershipCanFail`). `OwnedExactly` and `OwnedRunExactly` say that this is the only way, and
  `HomedAlwaysOwned` that it needs a Task id in two namespaces. Checkpoints survive it (`EveryStateRestores`).
* Exactly-once execution ends at an overloaded server. A server whose request queue is full answers a mutation
  with a rejection before looking at it (`crates/agent-broker-runtime/src/tcp_server.rs:340-347`), and the client
  releases whatever is rejected (`crates/agent-broker-client/src/client.rs:300-303`). If an earlier copy of the
  command was executed and its reply lost, the client forgets an executed command and reuses its identity:
  `ExecutedYetReleased` is the run. `ExactlyOnceServed` and `ReleasedIffTold` say that nothing else spoils it, and
  `AtMostOnceAlways` is what holds all the same. `ReleaseRule` and `RepeatsAreNeverSafe` say exactly when a release is
  safe, by the number of transmissions since the reservation, which the client could count, and by whether the
  network may repeat a copy; `ExactlyOnceCareful` is what a client that heeds this can rely on.
* A change that was acknowledged as durable may not be readable. Recovery refuses a journal line of more than 128
  MiB, but a commit writes a line of any length, and the record of a claim or reap holds every Task it requeued.
  `LongRecordsAreLost` and `Repository.Commit` say exactly when; such a record stops every restart until a
  compaction has removed it, and `Lifetimes.Live` says that nothing else does.
* A claim repeated after its group has moved on names the new generation next to a lease of the old one;
  `ClaimHonoured` says that what is built from such an answer is refused.
* The hole check of a log batch saturates at the largest index and so accepts that index twice
  (`HoleCheckIsExact`, `RepeatedLargestPasses`).

## Modelling choices

* Identifiers, objectives and results are natural numbers: only their order and equality matter. Counters and
  timestamps are natural numbers with the 64-bit limit checked wherever the code checks it.
* A binary heap of reversed tuples is the multiset of its keys, popped at the least key. A missing heap or
  counter reads as empty or zero.
* A Task and a Consumer Group are values that the Broker object replaces in its maps, as the code owns them by
  value in its maps; the Task id is its map key. Change sets are sets rather than sorted lists.
* Capabilities are sets, as the code normalizes them. Error payloads that only carry text are dropped, and the
  counter-overflow errors do not say which counter.
* The server's clock and limits arrive inside commands, as in the code. Outcomes of disk operations and of network
  attempts are parameters; a disk operation may fail before or after it took effect.
* The log is a totally ordered sequence of committed proposals. Copies of messages under way are a multiset; a
  copy arrives, is turned away or is lost, and the network may add copies of anything that was ever sent. The
  tickets and transmission counts of the end-to-end protocol are bookkeeping for its claims; the modelled
  client does not look at them.
* `Lifetimes.Live` is the environment of the single-node Broker: it only calls the adapter and reopens it.
* Readers and the publisher interleave at single loads and stores, which is what release stores followed by
  acquire loads of the same cells provide for this order of accesses.
* The retry loop is written with its exit test in the loop condition; the statement behind the loop in the code,
  which reports an exhausted loop, is never reached.

## Model

| member | source | states |
|---|---|---|
| `Refinement.ExecRefines` | crates/agent-broker-domain/src/state_machine.rs:569-613 | From any machine whose indexes agree with its maps, every command replies as the index-free step does; state and change set are the index-free ones unless a claim overflows; and the indexes agree afterwards if and only if the command met no hazard (a claim that overflows, or a new deadline whose expiration entry another namespace already holds). |
| `ClaimRefinement.ClaimRefines` | crates/agent-broker-domain/src/state_machine.rs:973-1053 | A claim requeues exactly the namespace's leases that expired at or before now and leases the least (created at, id) queued Task, or changes nothing; both directions of when the indexes survive it. What the answer then says is `Answers.ClaimAnswers`, and when it is accepted `Answers.ClaimServes`. |
| `ClaimRefinement.DrainKeepsLater` | crates/agent-broker-domain/src/state_machine.rs:1365-1381 | Popping due entries one by one leaves exactly the later entries, each with its multiplicity. |
| `ClaimRefinement.DueIsExpired` | crates/agent-broker-domain/src/state_machine.rs:1368-1381 | Among the popped entries, stale ones included, those that name a current lease are exactly the namespace's expired leases. |
| `ClaimRefinement.RecoverResult` | crates/agent-broker-domain/src/state_machine.rs:1360-1419 | Recovery puts back in the queue exactly the expired leases of the namespace, counts them, and touches no other Task. |
| `ClaimRefinement.RecoverAgrees` | crates/agent-broker-domain/src/state_machine.rs:1360-1419 | If every expired Task can advance its revision, all indexes agree again after recovery. |
| `ClaimRefinement.RecoverFails` | crates/agent-broker-domain/src/state_machine.rs:1400-1405 | If one cannot, recovery fails with the counter error and leaves an index out of agreement. |
| `ClaimRefinement.PopReadyIsLeast` | crates/agent-broker-domain/src/state_machine.rs:1345-1358 | The Task popped from the ready heap is the least queued one of the namespace, and nothing is popped if and only if none is queued. |
| `ClaimRefinement.NothingReady` | crates/agent-broker-domain/src/state_machine.rs:1000-1005 | If no Task is ready after recovery then no lease was recovered: the branch that bumps the revision without a grant cannot be reached. |
| `ClaimRefinement.ClaimFindsNothing` | crates/agent-broker-domain/src/state_machine.rs:999-1005 | A claim that finds nothing changes no authoritative state, although it may have drained stale entries. |
| `ClaimRefinement.ClaimOverflowBreaks` | crates/agent-broker-domain/src/state_machine.rs:999-1030 | A claim whose deadline or counter overflows replies with that error and always leaves an index out of agreement, because it had already drained or popped. |
| `DepartureRefinement.RequeueMemberRefines` | crates/agent-broker-domain/src/state_machine.rs:1460-1506 | Requeueing a departing member puts back exactly the leases that member holds. |
| `DepartureRefinement.LeaveRefines` | crates/agent-broker-domain/src/state_machine.rs:849-882 | Leave removes the member and requeues all its leases in one command; after the preflight nothing can fail. |
| `DepartureRefinement.SelectedAreFirst` | crates/agent-broker-domain/src/state_machine.rs:894-912 | The members of one group within a global selection of the first stale members are the first of that group's own stale members. |
| `DepartureRefinement.ReapGroupSelected` | crates/agent-broker-domain/src/state_machine.rs:945-952 | Hence reaping a group by the number of its selected members removes exactly the selected ones. |
| `DepartureRefinement.PreflightIsEnough` | crates/agent-broker-domain/src/state_machine.rs:929-942 | The preflight over the member index says exactly whether every lease of a selected member can advance. |
| `DepartureRefinement.ReapRefines` | crates/agent-broker-domain/src/state_machine.rs:884-971 | Selecting globally and reaping group by group removes exactly the first stale members in (heartbeat, group, member) order, advances each affected group once, requeues their leases and cannot fail after the preflight. |
| `PruneRefinement.ProbeSelects` | crates/agent-broker-domain/src/state_machine.rs:1171-1190 | The probe over a copy of the heap selects exactly the first completed Tasks at or before the cutoff in (completed at, id) order. |
| `PruneRefinement.DestroyRefines` | crates/agent-broker-domain/src/state_machine.rs:1213-1245 | The destructive pass deletes exactly as many, and the same, Tasks, and keeps all indexes in agreement. |
| `PruneRefinement.NoUnderflow` | crates/agent-broker-domain/src/state_machine.rs:1197-1210 | With exact counts no namespace is asked for more Tasks than it has, so the underflow error cannot occur. |
| `PruneRefinement.PruneRefines` | crates/agent-broker-domain/src/state_machine.rs:1163-1251 | Prune forgets exactly the first completed Tasks up to its limit, and per-namespace counts stay exact. |
| `Refinement.PublishRefines` | crates/agent-broker-domain/src/state_machine.rs:661-722 | Publishing keeps all indexes in agreement, with the capacity check on the index equal to the check on the real number of Tasks. |
| `Refinement.EnsureGroupRefines` | crates/agent-broker-domain/src/state_machine.rs:724-767 | The same for creating a group. |
| `Refinement.RenewRefines` | crates/agent-broker-domain/src/state_machine.rs:1055-1114 | A renewal keeps the indexes in agreement if and only if no other namespace holds the new deadline's entry. |
| `Refinement.CompleteRefines` | crates/agent-broker-domain/src/state_machine.rs:1116-1161 | A completion removes the lease from both lease indexes and enters the completed heap once. When it is accepted and what it answers is `Answers.CompleteAnswers`. |
| `Answers.ClaimAnswers` | crates/agent-broker-domain/src/state_machine.rs:1308-1343 | Of any machine in which leases are found under their ids: every accepted claim is answered with the term and revision it leaves, the generation, and the id, objective, revision, lease id, epoch and deadline of the Task then leased to the claimant, or with nothing exactly if it holds none under that id. |
| `Answers.EveryClaimAnswers` | crates/agent-broker-domain/src/state_machine.rs:973-1053 | So it is in every run from an empty Broker, hazards and overflows included. |
| `Answers.ClaimAgain` | crates/agent-broker-domain/src/state_machine.rs:980-998 | A claim under a lease id in use changes nothing: its holder is told the lease again, anybody else admitted gets the conflict. |
| `Answers.ClaimServes` | crates/agent-broker-domain/src/state_machine.rs:973-1053 | From agreeing indexes, an admitted claim under an unused id with counters to spare is accepted; it hands out the oldest Task that is queued or expired in the namespace, under the next epoch until now plus the duration, or nothing exactly if there is none; every other expired lease there is put back and nothing else changes. |
| `Answers.RenewAnswers` | crates/agent-broker-domain/src/state_machine.rs:1055-1114 | Of any machine: a renewal is accepted exactly if every field of the fence names the live lease before its deadline and no counter or deadline overflows; only the deadline moves, and the answer is the record it leaves. |
| `Answers.CompleteAnswers` | crates/agent-broker-domain/src/task.rs:612-642 | Of any machine, from an admitted caller: a completed Task answers exactly whoever repeats its lease id and result, unchanged, and refuses the others as already completed; a leased one is completed exactly by its live fence, with every field kept. |
| `Answers.CompletionRecognised` | crates/agent-broker-domain/src/task.rs:617-621 | Over every run that keeps the Task: a retained completion is recognised by lease id and result alone, whatever was committed since, with its revision and status and without any change; anything else is refused. |
| `Answers.ClaimHonoured` | crates/agent-broker-domain/src/state_machine.rs:1055-1161 | Over every run that leaves term, generation and lease alone: the renewal and the completion built from the answer to a claim are accepted up to the deadline in it, if and only if the lease was granted at the generation the answer names. |
| `Answers.NewLeaseGeneration` | crates/agent-broker-domain/src/state_machine.rs:1008-1030 | Which it was if the claim granted it. |
| `Presence.HeartbeatAnswers` | crates/agent-broker-domain/src/state_machine.rs:806-847 | Of any machine: a heartbeat is accepted exactly from a member that names the generation while counters last; the member's heartbeat becomes the later of the two, its revision and the group's count a newer one, nobody else is touched, and the answer is that record. |
| `Presence.JoinAnswers` | crates/agent-broker-domain/src/state_machine.rs:769-804 | Of any machine: when a join is accepted, that a known member is heard of and a new one recorded as joined and heard of now, and that the answer is the group it leaves. |
| `Presence.ReapSpares` | crates/agent-broker-domain/src/group.rs:623-656 | Of any machine: a reap leaves every member as it is that was heard of after the cutoff. |
| `Presence.HeardIsKept` | crates/agent-broker-domain/src/group.rs:569-656 | Over every run of any machine: a member whose heartbeat or join was accepted at some time is still a member, heard of no earlier, as long as it does not leave and no reap reaches that time. |
| `Presence.LeaveAnswers` | crates/agent-broker-domain/src/state_machine.rs:849-882 | From agreeing indexes: when a departure is accepted; the member goes and all its leases return to the queue, each with its epoch; nothing else changes, and the answer is the group it leaves. |
| `Presence.ReapAnswers` | crates/agent-broker-domain/src/state_machine.rs:884-971 | From agreeing indexes with counters to spare: a reap is refused only with a zero limit; those who leave are the stale members heard of longest ago, at most the limit, and nobody at or before the cutoff stays if there was room; each group counts one change, their leases return, and the reply counts members and groups. |
| `Catalog.NamespaceAnswers` | crates/agent-broker-domain/src/state_machine.rs:622-659 | Of any machine: when a namespace is created, at revision one and without touching another, and that it is found again afterwards. |
| `Catalog.TermAnswers` | crates/agent-broker-domain/src/state_machine.rs:1253-1270 | Of any machine: a term gives way exactly to a greater one proposed by someone who knows it; the new term is that one, and nothing else changes but the revision. |
| `Catalog.PublishAnswers` | crates/agent-broker-domain/src/state_machine.rs:661-722 | From agreeing indexes: a publication creates a queued Task at revision one and epoch zero while the namespace has room, and answers whoever repeats namespace and objective with the Task as it is; both directions. |
| `Catalog.EnsureGroupAnswers` | crates/agent-broker-domain/src/state_machine.rs:724-767 | From agreeing indexes: a group is created empty at generation zero while there is room, and found again in its own namespace only. |
| `Catalog.PruneAnswers` | crates/agent-broker-domain/src/state_machine.rs:1163-1251 | From agreeing indexes: exactly when a prune is accepted; what it forgets are the completions of longest ago, at most the limit, none at or before the cutoff staying if there was room, and the reply counts them. |
| `Catalog.RefusalsAreTrue` | crates/agent-broker-domain/src/state_machine.rs:1272-1306 | From agreeing indexes: no command is refused without cause; what its error says, with the values in it, is so. |
| `Refinement.CompletesItsLease` | crates/agent-broker-domain/src/task.rs:685-713 | A fresh completion names every field of the current lease and comes before its deadline. |
| `Coherence.RequeueAgrees` | crates/agent-broker-domain/src/state_machine.rs:1400-1416 | Requeueing one lease restores agreement of every index for that Task, whichever of its entries were already gone. |
| `Coherence.ForeignPushed` | crates/agent-broker-domain/src/state_machine.rs:1038-1041 | Adding a lease's expiration entry keeps heaps of other namespaces harmless if and only if none of them holds that very entry. |
| `Order.FirstN` | crates/agent-broker-domain/src/state_machine.rs:911-912 | Sort and truncate: the chosen keys are as many as allowed and every one lies below every key left out. |
| `Order.FirstNUnique` | crates/agent-broker-domain/src/state_machine.rs:911-912 | No other choice of that size has this property. |
| `Soundness.StepSound` | crates/agent-broker-domain/src/state_machine.rs:569-613 | By the index-free meaning, which is the machine's own outside hazards, every command keeps entity revisions positive, namespaces known, active lease ids unique, and every lease owned by a current member of a group in the Task's namespace at a generation the group has reached. |
| `Integrity.ExecKept` | crates/agent-broker-domain/src/state_machine.rs:569-613 | Of the machine itself, hazards and overflows included: every command keeps revisions positive, namespaces known, and every lease found under its id and under its holder. |
| `Integrity.MemberSwept` | crates/agent-broker-domain/src/state_machine.rs:1460-1506 | After its preflight a departing member loses all its leases, in any machine where leases are found under their holders, and every other lease is still found. |
| `Integrity.ReapSwept` | crates/agent-broker-domain/src/state_machine.rs:884-971 | The same for all members that a reap selects, group after group. |
| `Integrity.EveryStateRestores` | crates/agent-broker-domain/src/state_machine.rs:168-561 | Every state that the machine reaches by any log at all survives export and restore unchanged. |
| `Ownership.OwnedExactly` | crates/agent-broker-domain/src/state_machine.rs:973-1053 | Where every lease is owned, every lease is owned after the next command of the machine if and only if its reply did not hand out a Task of another namespace than the claimant's. |
| `Ownership.OwnedRunExactly` | crates/agent-broker-domain/src/state_machine.rs:569-613 | Over every run of the machine: every lease of every state is owned if and only if no reply handed a Task abroad. |
| `Ownership.SafeRunSound` | crates/agent-broker-domain/src/state_machine.rs:569-613 | A safe log leads the machine to a sound state, ownership included. |
| `Ownership.HomedAlwaysOwned` | crates/agent-broker-domain/src/state_machine.rs:661-722 | A log that publishes no Task id in two namespaces leaves every lease owned in every state of the machine, also when claims overflow on the way. |
| `Soundness.LeaveSound` | crates/agent-broker-domain/src/state_machine.rs:849-882 | By the index-free meaning, leases stay owned although a member goes. |
| `Soundness.ReapSound` | crates/agent-broker-domain/src/state_machine.rs:884-971 | By the index-free meaning, leases stay owned although stale members of several groups go at once. |
| `Soundness.ClaimSound` | crates/agent-broker-domain/src/state_machine.rs:973-1053 | By the index-free meaning, a new lease is owned and its lease id is in use nowhere else; `Ownership.OwnedExactly` says when the machine's claim does the same. |
| `Fencing.ExecLawful` | crates/agent-broker-domain/src/state_machine.rs:569-613 | For every command, every Task and every machine, whatever state its indexes are in: the Task is unchanged, or moved by exactly one legal transition whose conditions held (a requeue only by expiry, by its owner leaving, or by a reap that selected its owner as stale), or published new, or pruned when completed. |
| `Fencing.EpochsCountGrants` | crates/agent-broker-domain/src/task.rs:563-581 | Over any run of any machine in which a Task survives, its epoch rises by exactly the number of grants on it: no two leases of one incarnation share an epoch. |
| `Fencing.OnlyTheHolderMoves` | crates/agent-broker-domain/src/state_machine.rs:1055-1161 | A renewal or completion that changes anything presented every field of the current lease, the group's current generation, the current term and a time before the deadline. |
| `Fencing.OverForever` | crates/agent-broker-domain/src/task.rs:563-683 | Once the lease of an epoch is over it stays over in every later state of that incarnation, in any run of any machine. |
| `Fencing.StaleFenceRejected` | crates/agent-broker-domain/src/task.rs:589-713 | Whatever was committed in between and however damaged the indexes are, a command presenting an epoch whose lease is over changes nothing at all, and a renewal is refused. |
| `Fencing.StaleGenerationRejected` | crates/agent-broker-domain/src/state_machine.rs:1282-1295 | Once a group's generation has moved, a claim, renewal or completion presenting an older one is refused and changes nothing in every later state of any machine. |
| `Fencing.CompletionIsFinal` | crates/agent-broker-domain/src/task.rs:612-637 | A completed Task keeps its recorded completion for as long as it is retained, in any run of any machine. |
| `Membership.ExecGroupLaw` | crates/agent-broker-domain/src/group.rs:525-656 | What all commands of any machine have in common: a group's generation moves by one exactly when its set of members changes, its revision by one exactly when anything in it changes, and no heartbeat is turned back. What each command records is `Presence`. |
| `Membership.GenerationCountsChanges` | crates/agent-broker-domain/src/group.rs:525-656 | Over every run of any machine the generation counts the membership changes. |
| `Membership.JoinLaw` | crates/agent-broker-domain/src/group.rs:525-562 | A join is accepted exactly from a member that repeats its capabilities, whose heartbeat becomes the later of the two, or from a new one within the limit, recorded with its capabilities as joined and heard of now; nobody else is touched, and the outcome says unchanged exactly when nothing changed. |
| `Membership.PublishLimit` | crates/agent-broker-domain/src/state_machine.rs:684-694 | A publication that adds a Task leaves its namespace within the limit. |
| `Membership.EnsureGroupLimit` | crates/agent-broker-domain/src/state_machine.rs:740-750 | A group creation does too. |
| `Atomicity.FailureIsAtomic` | crates/agent-broker-domain/src/state_machine.rs:769-1251 | A rejected command leaves maps and every index exactly as they were, if and only if it is not an overflowing claim. |
| `Atomicity.OverflowStrays` | crates/agent-broker-domain/src/state_machine.rs:999-1030 | An overflowing claim also changes authoritative state, without a new revision, exactly when the least expired Task could be requeued before the failure. |
| `Atomicity.RejectedStep` | crates/agent-broker-domain/src/state_machine.rs:569-613 | By the index-free meaning every rejection changes nothing and names no changed record. |
| `Checkpoints.ListedIs` | crates/agent-broker-domain/src/state_machine.rs:168-184 | Exported records are the entries of the map, each once, in ascending key order. |
| `Checkpoints.LoadIs` | crates/agent-broker-domain/src/state_machine.rs:398-440 | Loading records one by one succeeds if and only if every record is valid and no id repeats, and then holds exactly those records. |
| `Checkpoints.RestoreStateIs` | crates/agent-broker-domain/src/state_machine.rs:398-486 | A checkpoint is accepted if and only if revisions are positive, namespaces known and ids distinct (members included), and is then represented record by record. |
| `Rebuilding.IndexTasksIs` | crates/agent-broker-domain/src/state_machine.rs:498-561 | Rebuilding succeeds if and only if no lease id is used twice, and yields agreeing indexes with no stale expiration entry. |
| `Rebuilding.RebuildIs` | crates/agent-broker-domain/src/state_machine.rs:498-514 | The rebuilt machine has exactly the given state, empty change sets and agreeing indexes. |
| `Rebuilding.RoundTrip` | crates/agent-broker-domain/src/state_machine.rs:168-561 | Export then restore succeeds exactly for states with positive revisions, known namespaces and unique lease ids, and returns the same state. |
| `Rebuilding.RestoredIsCoherent` | crates/agent-broker-domain/src/state_machine.rs:379-396 | Whatever checkpoint is accepted, the machine built from it agrees with itself and with the checkpoint. |
| `Entries.ExecEntries` | crates/agent-broker-domain/src/state_machine.rs:1038-1041 | The expiration heaps after a command are a function of the old heaps, the authoritative state and the command, although they are not a function of the state alone. |
| `Replicas.RunRefines` | crates/agent-broker-domain/src/state_machine.rs:569-613 | Along every safe run the machine keeps agreeing indexes and gives the index-free states and replies. |
| `Replicas.SafeExactly` | crates/agent-broker-domain/src/state_machine.rs:569-613 | A run is safe if and only if the indexes agree in every one of its states. |
| `Replicas.RestoredTracks` | crates/agent-broker-domain/src/state_machine.rs:379-396 | A machine rebuilt from the checkpoint of another has the same state and no expiration entry that the other lacks. |
| `Replicas.TracksStep` | crates/agent-broker-domain/src/state_machine.rs:569-613 | Two such machines answer every hazard-free command alike and stay so related. |
| `Replicas.Converge` | crates/agent-broker-domain/src/state_machine.rs:379-613 | For every log that is safe for the machine that applied everything, and any checkpoints taken and reinstalled along it, states and replies are those of that machine. |
| `Replicas.ReplicasAgree` | crates/agent-broker-domain/src/state_machine.rs:379-613 | Any two replicas of one safe log agree, started empty, wherever each was rebuilt. |
| `Replicas.HomedLogIsSafe` | crates/agent-broker-domain/src/state_machine.rs:661-722 | A log that publishes no Task id in two namespaces is safe if and only if none of its claims overflows. |
| `Hazards.ForeignIs` | crates/agent-broker-domain/src/state_machine.rs:1038-1041 | A hazard that is no overflow is exactly a new lease whose expiration entry already sits in another namespace. |
| `Hazards.ClaimTellsApart` | crates/agent-broker-domain/src/state_machine.rs:1360-1419 | A machine with such an entry and a coherent one in the same state end in different states on any claim admitted in that namespace once the entry is due. |
| `Hazards.HazardDiverges` | crates/agent-broker-domain/src/state_machine.rs:379-1053 | The converse of convergence: after a command that met a foreign entry, any claim admitted in that namespace once the entry is due, while everything due there can be requeued, leaves the replica and its rebuilt copy in different states. |
| `Hazards.HazardAlwaysShows` | crates/agent-broker-domain/src/state_machine.rs:379-1053 | Such a claimant can always be found: unless a counter is exhausted, some commands after the hazard leave the replica and its rebuilt copy in different states. |
| `Hazards.KnownStep` | crates/agent-broker-domain/src/state_machine.rs:1038-1041 | Every expiration entry sits in a namespace that the Broker knows, after every command that does not overflow. |
| `Exhaustion.OverflowDiverges` | crates/agent-broker-domain/src/state_machine.rs:973-1053 | The same for the other kind of hazard: after any claim that overflowed, some repetition of that very claim is answered differently by the replica that ran it and by the copy rebuilt from its checkpoint. |
| `Exhaustion.LagShows` | crates/agent-broker-domain/src/state_machine.rs:1345-1358 | Two replicas in one state, one of them a Task behind in the ready queue whose first Task cannot be leased, are told apart by repeating the claim. |
| `Exhaustion.GetsStuck` | crates/agent-broker-domain/src/state_machine.rs:1400-1405 | A recovery that fails has requeued exactly the expired Tasks before the stuck one, and every other expired lease has lost its entry. |
| `Divergence.ReplicasCanDiverge` | crates/agent-broker-domain/src/state_machine.rs:1360-1419 | A concrete sound Broker and five commands after which a full replica and a rebuilt one answer the same claim differently: one hands out a Task of another namespace. |
| `Divergence.OwnershipCanFail` | crates/agent-broker-domain/src/state_machine.rs:1360-1419 | With that claim ownership is lost: a member of namespace 0 holds a lease on a Task of namespace 1. |
| `Divergence.StartIsReachable` | crates/agent-broker-domain/src/state_machine.rs:379-613 | That Broker is an ordinary one: eight safe commands from nothing and one restart from a checkpoint lead to it. |
| `Divergence.RefusedYetChanged` | crates/agent-broker-domain/src/state_machine.rs:999-1030 | At that Broker a claim whose deadline does not fit is refused, and the expired Task has been requeued all the same. |
| `Journals.ChangeSetExact` | crates/agent-broker-domain/src/state_machine.rs:1528-1542 | For every command, the changed records and deletions patched onto the old state give exactly the new one, and the revision rises by one exactly when the state changed. |
| `Journals.RecordAccepted` | crates/agent-broker-storage/src/journal_v1.rs:194-238 | From a sound state, the journal record of every state-changing command passes all replay checks on the state before it and yields the state after it. |
| `Journals.RecordsAreChecked` | crates/agent-broker-storage/src/journal_v1.rs:194-238 | A record is applied exactly if it is old, which changes nothing, or the next one that turns back neither the term nor a record and leads to a restorable state. |
| `Journals.ReplayIsRun` | crates/agent-broker-storage/src/journal_v1.rs:194-238 | Replaying the journal of a run, by the index-free meaning of its commands, from its first state gives its last state. |
| `Journals.StaleRecordsIgnored` | crates/agent-broker-storage/src/journal_v1.rs:198-200 | Records at or below a snapshot's revision leave it alone, so a crash between snapshot and truncation loses nothing. |
| `Standalone.Repository.Load` | crates/agent-broker-storage/src/repository.rs:210-231 | Loading folds the journal over the snapshot, and then knows the length of the journal and how many commits it is ahead; it fails on a line that is too long. |
| `Standalone.ReadBackIsReplay` | crates/agent-broker-storage/src/repository.rs:147-205 | A journal is read back as the records in it, if and only if no line is longer than 128 MiB. |
| `Standalone.LongRecordsAreLost` | crates/agent-broker-storage/src/repository.rs:318-331 | For every command that changes a sound state: its record leads to the new state, and is read back exactly if it is not too long; a commit does not ask. |
| `Standalone.Repository.Compact` | crates/agent-broker-storage/src/repository.rs:138-145 | At every point of a compaction the disk leads where it led before, or to the new state; what is on disk and what is counted after each failure. |
| `Standalone.Repository.Commit` | crates/agent-broker-storage/src/repository.rs:233-269 | Exactly when a commit fails and with which error: a deferred compaction, the append, an unencodable change set or one of the two counters. Success means that the disk leads to the new state, and a failure that it leads to the old or the new one; a compaction that fails after the append is deferred and the commit still succeeds; and a success can be read back exactly if the record is not too long or was compacted away. |
| `Standalone.StandaloneAdapter.Open` | crates/agent-broker-consensus/src/standalone.rs:24-39 | Opening succeeds exactly when the disk loads to a restorable state, which memory then is, with indexes rebuilt; from a sound one the adapter is fit for every later proposal. |
| `Standalone.ReplayedAtMost` | crates/agent-broker-storage/src/journal_v1.rs:194-238 | Whatever a journal replays to, none of its records is newer. |
| `Standalone.StandaloneAdapter.Propose` | crates/agent-broker-consensus/src/standalone.rs:73-95 | An adapter in good standing answers with a durability failure, and stops for good, exactly if the command changes the state and its commit is bound to fail; otherwise it answers as prescribed, a reply only for a durable change; after a refusal disk equals memory if and only if no lease went astray. |
| `Standalone.StandaloneAdapter.Persist` | crates/agent-broker-consensus/src/standalone.rs:86-93 | The adapter stops exactly if the commit of an encodable change set is bound to fail, and the disk then leads to the old or the new state. |
| `Standalone.ProposeFacts` | crates/agent-broker-consensus/src/standalone.rs:73-95 | What one command does to state, change set and journal, in the form the adapter needs. |
| `Lifetimes.Live` | crates/agent-broker-consensus/src/standalone.rs:24-95 | Over any sequence of proposals, durability failures, crashes and restarts, for commands that keep each Task id to one namespace: unless a claim was answered with an overflow, the disk ends with exactly the state of the proposals that took effect, every reply and refusal is the one prescribed by those before it, and only a proposal answered with a durability failure is in doubt. Every restart succeeds unless a record was too long to be read back, and if every disk operation succeeds and the journal fits its counter, every command is answered by its meaning, restarts or not. |
| `Lifetimes.Propose` | crates/agent-broker-consensus/src/standalone.rs:73-95 | One proposal keeps the adapter where the proposals that took effect lead, in memory and on disk, or stops it with the disk there; with nothing deferred, room in the journal and an undisturbed disk it answers by the meaning of the command. |
| `Lifetimes.OverflowIsSeen` | crates/agent-broker-domain/src/state_machine.rs:999-1030 | A caller can tell from the answer, and only from these answers, that a claim overflowed. |
| `Broker.BrokerStateMachine.Apply` | crates/agent-broker-domain/src/state_machine.rs:569-613 | The in-place command does what the index-free meaning says, and keeps agreement exactly outside hazards. |
| `Broker.BrokerStateMachine.Execute` | crates/agent-broker-domain/src/state_machine.rs:569-613 | In any state, agreeing or not, the in-place command has exactly the modelled effect, failures included. |
| `Broker.BrokerStateMachine.RecoverExpiredLeases` | crates/agent-broker-domain/src/state_machine.rs:1360-1419 | The two loops of recovery: draining the heap and requeueing candidates in id order. |
| `Broker.BrokerStateMachine.PopReadyTask` | crates/agent-broker-domain/src/state_machine.rs:1345-1358 | The popping loop leaves the heap at the first entry that names a queued Task. |
| `Broker.BrokerStateMachine.ClaimTask` | crates/agent-broker-domain/src/state_machine.rs:973-1053 | The object claims exactly as modelled from any state: what was drained, requeued or popped when it fails is left as the code leaves it. What it answers is `Answers.ClaimAnswers`. |
| `Broker.BrokerStateMachine.RequeueMemberLeases` | crates/agent-broker-domain/src/state_machine.rs:1460-1506 | The requeue loop over a member's indexed leases. |
| `Broker.BrokerStateMachine.LeaveGroup` | crates/agent-broker-domain/src/state_machine.rs:849-882 | The object leaves exactly as modelled, preflight first, with nothing touched by a refusal. |
| `Broker.BrokerStateMachine.ReapStaleMembers` | crates/agent-broker-domain/src/state_machine.rs:884-971 | Reap in place: preflight, then the nested loops over groups and removed members. |
| `Broker.BrokerStateMachine.SelectCompleted` | crates/agent-broker-domain/src/state_machine.rs:1171-1190 | The loop over a copy of the heap returns the modelled selection and changes nothing. |
| `Broker.BrokerStateMachine.DeleteCompleted` | crates/agent-broker-domain/src/state_machine.rs:1213-1245 | The loop over the heap itself deletes as many as were selected, putting back an entry past the cutoff. |
| `Broker.BrokerStateMachine.PruneCompleted` | crates/agent-broker-domain/src/state_machine.rs:1163-1251 | Probe, count check and deletion together have exactly the modelled effect. |
| `Broker.BrokerStateMachine.PublishTask` | crates/agent-broker-domain/src/state_machine.rs:661-722 | Map, count, ready heap and change set move together, or nothing does. |
| `Broker.BrokerStateMachine.RenewLease` | crates/agent-broker-domain/src/state_machine.rs:1055-1114 | A renewal adds an expiration entry and leaves the old one behind; a refusal changes nothing. |
| `Broker.BrokerStateMachine.CompleteTask` | crates/agent-broker-domain/src/state_machine.rs:1116-1161 | A fresh completion moves map, both lease indexes and completed heap together; a repeated one changes nothing. When either is accepted is `Answers.CompleteAnswers`. |
| `Broker.BrokerStateMachine.Restore` | crates/agent-broker-domain/src/state_machine.rs:379-396 | Restoring loops over the records and indexes every Task, or returns the first error. |
| `Sessions.SameRequestIsErasure` | crates/agent-broker-consensus/src/replicated_command.rs:116-319 | Retry matching is equality of commands with server clocks and capacity limits erased. |
| `Sessions.Outcomes` | crates/agent-broker-consensus/src/raft_state_machine.rs:120-226 | An executed command is answered with the Broker's own reply or error, as committed, and recorded with that response under its identity, no other record touched; anything else leaves Broker and sessions alone and is answered by a rejection or by the recorded response. |
| `Sessions.UnidentifiedOutcome` | crates/agent-broker-consensus/src/raft_state_machine.rs:306-318 | A command without identity is always executed, answered with the Broker's own reply or committed error, and leaves the session table alone. |
| `Sessions.Verdicts` | crates/agent-broker-consensus/src/raft_state_machine.rs:120-226 | Exactly the identity that its session may use next is executed; the last one is answered again if the request is the same and in conflict if not; a new session may find the table of 4096 full; everybody else is stale. |
| `Sessions.AcquireOutcomes` | crates/agent-broker-consensus/src/raft_state_machine.rs:228-304 | Exactly who is given a session, under which epoch, with nothing recorded, and that a repeated acquisition changes nothing. |
| `Responding.ExecutedIsTold` | crates/agent-broker-consensus/src/raft_state_machine.rs:306-318 | Over every log, whatever the Broker executes is answered with what it answered there, through `Responses`. |
| `Responding.EveryCommandIsTold` | crates/agent-broker-consensus/src/replicated_response.rs:41-69 | Over every log from an empty table, a command is answered with what the Broker answered when it executed it there, or with the response of an earlier entry that executed an equivalent command under the same identity, or by the fence. |
| `Responding.EveryEntryIsAnswered` | crates/agent-broker-consensus/src/raft_state_machine.rs:366-395 | Every entry of a log that decodes is answered. |
| `Sessions.RetryRepeats` | crates/agent-broker-consensus/src/raft_state_machine.rs:158-161 | An equivalent retry of the last executed identity gets the stored response verbatim and changes nothing. |
| `Sessions.RetryAfterRun` | crates/agent-broker-consensus/src/raft_state_machine.rs:120-226 | It still does after any run during which the record stood. |
| `Sessions.SessionsMoveForward` | crates/agent-broker-consensus/src/raft_state_machine.rs:120-304 | Over every run epochs never fall, an epoch has one owner instance, recorded sequences never fall and an outcome is replaced only by a later one, the table stays within 4096 and stored outcomes are committed. |
| `Sessions.AtMostOnce` | crates/agent-broker-consensus/src/raft_state_machine.rs:120-226 | After an execution, no later proposal with the same session, epoch and sequence is executed. |
| `Sessions.TableStaysBounded` | crates/agent-broker-consensus/src/raft_state_machine.rs:202-209 | No proposal pushes the session table beyond its bound. |
| `Raft.RaftStateMachine.ApplyIdentified` | crates/agent-broker-consensus/src/raft_state_machine.rs:120-226 | Screening, execution and recording have exactly the effect of the values that `Outcomes`, `Verdicts` and the run theorems are about. |
| `Raft.RaftStateMachine.AcquireOwner` | crates/agent-broker-consensus/src/raft_state_machine.rs:228-304 | Bootstrap, idempotent retry, takeover and refusals of an acquisition, with the table changed only by the first and third. |
| `Raft.RaftStateMachine.Apply` | crates/agent-broker-consensus/src/raft_state_machine.rs:366-395 | A batch applies in order, publishing the state after every entry, and stops where an entry cannot be decoded. |
| `Raft.BatchPublishes` | crates/agent-broker-consensus/src/raft_state_machine.rs:388-391 | After every batch, also one that stopped half way, observers have the present state and index, one more notice for every applied entry, and never saw a term or revision fall. |
| `Raft.BatchRecords` | crates/agent-broker-consensus/src/raft_state_machine.rs:366-395 | A batch leaves the replica at its last entry with the last membership in it, and the notice of every entry shows its index and the state that the proposals up to it lead to. |
| `Progress.ExecNoOlder` | crates/agent-broker-domain/src/state_machine.rs:569-613 | No command, not even one that fails half way over damaged indexes, sets the term or the revision back. |
| `Raft.RaftStateMachine.Load` | crates/agent-broker-consensus/src/raft_state_machine.rs:56-89 | A restart takes up the persisted snapshot, or starts empty, and publishes that; a snapshot that does not decode or restore, and half of a persisted pair, is an error. |
| `Raft.RaftStateMachine.InstallSnapshot` | crates/agent-broker-consensus/src/raft_state_machine.rs:413-435 | Broker, sessions, positions and publication change together, after validation and persistence, or not at all; a write that fails after it took effect leaves only the disk changed. |
| `Raft.RaftStateMachine.BuildSnapshot` | crates/agent-broker-consensus/src/raft_state_machine.rs:331-349 | A built snapshot is on disk before it is handed out; after a failed write the disk holds what it held or the new snapshot; and from the new one a restart has the authoritative state, sessions, log position and membership of the replica its builder was taken from. |
| `Raft.BuiltLoads` | crates/agent-broker-consensus/src/raft_state_machine.rs:56-349 | Building a snapshot of any replica whose state and sessions a snapshot can carry, and loading it, gives that replica back with rebuilt indexes. |
| `Raft.BatchIsRun` | crates/agent-broker-consensus/src/raft_state_machine.rs:366-395 | A batch is the run of its proposals: control entries change neither Broker nor sessions, every entry gets its own proposal's response or a control response, and the batch fails exactly if a proposal does not decode. |
| `Snapshots.BigEndianRoundTrip` | crates/agent-broker-consensus/src/raft_state_machine.rs:575-583 | Fixed-width big-endian lengths read back. |
| `Snapshots.HeaderReadsBack` | crates/agent-broker-consensus/src/raft_state_machine.rs:575-587 | Every field of an encoded container is found where the decoder looks. |
| `Snapshots.ContainerLayout` | crates/agent-broker-consensus/src/raft_state_machine.rs:532-587 | A snapshot is refused exactly if a payload is longer than 64 bits can say; otherwise it is magic, version, two lengths and the two payloads, at these places. |
| `Snapshots.ContainerRead` | crates/agent-broker-consensus/src/raft_state_machine.rs:589-651 | A magic-prefixed input is read exactly if it carries the version, its lengths add up to its own within 64 bits, and both payloads are readable. |
| `Snapshots.HeaderAccountsForAll` | crates/agent-broker-consensus/src/raft_state_machine.rs:589-651 | A magic-prefixed input decodes only if version and lengths account for every byte, the checkpoint rebuilds and the session bound holds. |
| `Snapshots.SessionsSurvive` | crates/agent-broker-consensus/src/raft_state_machine.rs:653-719 | A storable session table comes back unchanged through record encoding, normalization and validation. |
| `Snapshots.RecordSurvives` | crates/agent-broker-consensus/src/replicated_response.rs:78-101 | Normalization and validation leave a committed, complete outcome as it is. |
| `Snapshots.SnapshotRoundTrip` | crates/agent-broker-consensus/src/raft_state_machine.rs:532-651 | Decoding an encoded snapshot gives back checkpoint and sessions. |
| `Nodes.RepliesShaped` | crates/agent-broker-consensus/src/replicated_response.rs:570-592 | Whatever machine answers, a claim reply names a lease completely or not at all. |
| `Nodes.DeliverStorable` | crates/agent-broker-consensus/src/raft_state_machine.rs:120-304 | Every proposal keeps the session table storable, so reachable outcomes survive a snapshot. |
| `Nodes.EveryTableStorable` | crates/agent-broker-consensus/src/raft_state_machine.rs:120-304 | Over every run the session table is one that survives a snapshot unchanged. |
| `Nodes.SnapshotInstalls` | crates/agent-broker-consensus/src/raft_state_machine.rs:331-435 | Installing a replica's own snapshot gives its state and sessions back with rebuilt indexes, owned leases or not. |
| `Nodes.EverySnapshotInstalls` | crates/agent-broker-consensus/src/raft_state_machine.rs:331-435 | Whatever was committed and installed before, hazards and overflows included, the snapshot of every replica installs and gives its state and sessions back. |
| `Nodes.NodesConverge` | crates/agent-broker-consensus/src/raft_state_machine.rs:366-435 | If every proposal decodes and no executed command meets a hazard, the codecs read back what they wrote and the snapshots fit into 64-bit lengths: with snapshots installed at any points of the committed log, responses, authoritative state and sessions are those of the replica that applied it all. |
| `Nodes.HomedNodeIsSafe` | crates/agent-broker-consensus/src/raft_state_machine.rs:91-226 | A log of proposals that publishes no Task id in two namespaces is safe if and only if every proposal decodes and no executed claim overflows. |
| `Nodes.HomedNodesConverge` | crates/agent-broker-consensus/src/raft_state_machine.rs:366-435 | So any replica of such a log, from nothing and through any snapshots that fit, answers and ends like one that applied it all. |
| `Client.OperationsKeepValid` | crates/agent-broker-client/src/session_store.rs:544-609 | No store operation builds a state that validation would refuse. |
| `Client.AcquisitionExact` | crates/agent-broker-client/src/session_store.rs:239-310 | When ownership may be asked for and confirmed, with the epochs expected and accepted, and that numbering starts again. |
| `Client.ReservationExact` | crates/agent-broker-client/src/session_store.rs:318-436 | When a command may be reserved, under which identity, and that releasing undoes it while acknowledging moves on by one. |
| `Client.AbsorbedExactly` | crates/agent-broker-client/src/client.rs:283-317 | What each kind of response does to memory and file. |
| `Client.DurableSessionStore.Commit` | crates/agent-broker-client/src/session_store.rs:438-443 | Memory never runs ahead of the file; a failed write leaves the file old or new. |
| `Client.DurableSessionStore.BeginAcquisition` | crates/agent-broker-client/src/session_store.rs:239-274 | A pending acquisition is durable before it may be sent, and blocked while anything is unresolved. |
| `Client.DurableSessionStore.ConfirmAcquisition` | crates/agent-broker-client/src/session_store.rs:284-310 | Confirmation restarts the sequence at one under the new owner. |
| `Client.DurableSessionStore.ReserveCommand` | crates/agent-broker-client/src/session_store.rs:318-360 | A reserved command is durable before it may be sent. |
| `Client.DurableSessionStore.AcknowledgeOutcome` | crates/agent-broker-client/src/session_store.rs:384-407 | Acknowledging advances past exactly the command in flight. |
| `Client.DurableSessionStore.ReleaseRejected` | crates/agent-broker-client/src/session_store.rs:419-436 | Releasing frees the slot without advancing. |
| `Client.Settling` | crates/agent-broker-client/src/client.rs:283-317 | The attempt that decides is the first unambiguous one, or the last one allowed. |
| `Client.ExecuteReserved` | crates/agent-broker-client/src/client.rs:283-317 | The deciding attempt follows only lost connections and unknown outcomes; memory and file absorb what it says and nothing else, whatever the write does; an ambiguous end leaves the command in flight. |
| `ExactlyOnce.SpentNotExecuted` | crates/agent-broker-consensus/src/raft_state_machine.rs:120-226 | The Broker executes nothing that a store is past. |
| `ExactlyOnce.AcquireView` | crates/agent-broker-consensus/src/raft_state_machine.rs:228-304 | A repeated or delayed acquisition changes nothing; the awaited one leads where the store expects. |
| `ExactlyOnce.TakeKeeps` | crates/agent-broker-client/src/session_store.rs:239-443 | Every step of client, disk, network, server and Broker keeps the protocol invariant, for memory and for the file alike, rejections by a full queue included. |
| `ExactlyOnce.LoopIsRun` | crates/agent-broker-client/src/client.rs:283-317 | What the retry loop does to memory and file is a run of transmissions and one received answer in this protocol. |
| `ExactlyOnce.AtMostOnceAlways` | crates/agent-broker-client/src/session_store.rs:239-443 | Over every run at all, with crashes, an unreliable network and a server that may turn requests away: no identity is executed twice, and every acknowledged command was executed under its identity and with its request. |
| `Served.ExactlyOnceServed` | crates/agent-broker-client/src/client.rs:283-317 | For the client as it is written, over every run in which it is never told that its command was turned away, whatever crashes, lost writes, losses, repetitions and delays there are: no command is released, every acknowledged reservation was executed, none twice, and the one in flight is never refused by the Broker. |
| `Served.ExactlyOnceUnlessOverloaded` | crates/agent-broker-runtime/src/tcp_server.rs:340-347 | In particular on any network and for any crashes, if the server turns no command away. |
| `Served.ReleasedIffTold` | crates/agent-broker-client/src/client.rs:300-303 | Over every run: a command is released if and only if the client took in the answer of a full queue. |
| `Served.TakeExact` | crates/agent-broker-client/src/session_store.rs:239-443 | Every other step keeps memory and file, what was ever sent and what was executed in step, reservation by reservation. |
| `Served.OnlyTurnedAway` | crates/agent-broker-consensus/src/raft_state_machine.rs:120-226 | The Broker itself never rejects the command in flight. |
| `ExactlyOnce.OnlyExecutionChangesBroker` | crates/agent-broker-consensus/src/raft_state_machine.rs:120-226 | Among all moves of this client and its network only an execution that enters the history changes the Broker. |
| `CarefulClient.TakeTidy` | crates/agent-broker-client/src/client.rs:283-317 | A client that releases only what it sent once, and sends nothing after the write of a release was lost, keeps every reservation apart from every other, on a network that repeats nothing by itself. |
| `CarefulClient.ExactlyOnceCareful` | crates/agent-broker-client/src/client.rs:283-317 | Over every run of such a client, turned-away commands included, on a network that repeats nothing by itself, reservation by reservation: every acknowledged one was executed, none twice, a released one was not executed and no copy of it is left to be, and the one in flight is never refused by the Broker. |
| `Overload.ReleaseRule` | crates/agent-broker-client/src/client.rs:300-303 | On a network that repeats nothing by itself, a release after a rejection by a full queue is safe exactly if the command was sent no more than once since it was reserved. |
| `Overload.RepeatsAreNeverSafe` | crates/agent-broker-client/src/client.rs:300-303 | On a network that may repeat a copy, no number of transmissions makes it safe. |
| `Overload.ExecutedYetReleased` | crates/agent-broker-runtime/src/tcp_server.rs:340-347 | The concrete run in which it is not: a command is executed, its retry meets a full queue, the client releases it, and the next command takes over its identity and is refused as a conflict. |
| `Observation.ReadersSeeAtLeast` | crates/agent-broker-consensus/src/raft_observation.rs:31-71 | In every interleaving a reader that obtained an applied index obtained a published one, and the directory, term and revision it then loads are from that version or a later one. |
| `Observation.IdleShowsLatest` | crates/agent-broker-consensus/src/raft_observation.rs:31-48 | In every interleaving, whenever no publication is under way all cells show the latest version, and the flag says whether it has an index. |
| `Observation.PublicationCompletes` | crates/agent-broker-consensus/src/raft_observation.rs:31-48 | A publication is finished by five more steps of the updater, or three without an index. |
| `Observation.UndisturbedReader` | crates/agent-broker-consensus/src/raft_observation.rs:50-71 | A reader that asks between publications gets the latest version whole, or learns that it has no index. |
| `LogStore.NormalizeIsExact` | crates/agent-broker-consensus/src/raft_log_storage.rs:241-264 | Exactly the 64-bit indexes within the bounds are selected, the largest included; the only error is a start that excludes the largest index. |
| `LogStore.HoleCheckIsExact` | crates/agent-broker-consensus/src/raft_persistence.rs:78-85 | The batch check accepts exactly consecutive batches, except that it lets a repeated largest index through. |
| `LogStore.RepeatedLargestPasses` | crates/agent-broker-consensus/src/raft_persistence.rs:78-94 | Two entries under the largest index pass the check, and the second replaces the first. |
| `LogStore.InsertedContiguous` | crates/agent-broker-consensus/src/raft_persistence.rs:87-94 | Appending at the end keeps the stored indexes one run and every old entry as it was. |
| `LogStore.RaftLogStorage.Append` | crates/agent-broker-consensus/src/raft_log_storage.rs:159-203 | All of a batch is stored, or nothing. |
| `LogStore.RaftLogStorage.Truncate` | crates/agent-broker-consensus/src/raft_log_storage.rs:205-214 | What remains is the run below the index. |
| `LogStore.RaftLogStorage.Purge` | crates/agent-broker-consensus/src/raft_log_storage.rs:216-228 | What remains is the run just above the purged index, empty if that lies beyond the end. |
| `LogStore.RaftLogStorage.GetLogState` | crates/agent-broker-consensus/src/raft_log_storage.rs:93-113 | The reported last entry is the exact end of the log. |
| `LogStore.RaftLogStorage.ReadRange` | crates/agent-broker-consensus/src/raft_log_storage.rs:67-89 | A range read returns exactly the stored entries within the bounds, in order, or names the first key in the range whose entry carries another index. |

## Left out

- OpenRaft: elections, replication and commitment; a committed, totally ordered log is taken as given.
- Transport, TLS, threads, timeouts, routers and asynchronous facades: plumbing around the modelled operations, except the answer of a full request queue, which is modelled.
- JSON codecs of commands, responses, checkpoints and session files: `Snapshots.Codec` assumes that they read back what they wrote.
- Torn journal tails, file locks, temporary files and fsync: a disk operation is atomic and fails before or after its effect.
- Identifier, capability and text validation and policy bounds: single-function checks on opaque values.
- Protocol-v2 sessions without an owner instance are part of `Sessions` but not of the end-to-end protocol.
- Health requests: they are not mutations and never enter a session.
- Group directory and capability queries: read-only projections of the authoritative state.
- Hazards.HazardDiverges: asks that everything due in the namespace can be requeued; an exhausted Task that comes first stops recovery in both replicas alike and drains the foreign entry with it.
- CarefulClient.TakeTidy: speaks of a client that counts transmissions, which the code's client does not, on a network that repeats nothing by itself; `Served` is about the code's client.
- CarefulClient.ExactlyOnceCareful: the same; with repetition `Overload.RepeatsAreNeverSafe` shows that no such count would do.
