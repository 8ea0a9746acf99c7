/** The Task lifecycle: queued, leased, completed, with lease fencing. */
module Tasks {
  import opened Order

  datatype Lease = Lease(leaseId: nat, owner: nat, group: nat, generation: nat, epoch: nat, expiresAt: nat)

  datatype Completion = Completion(
    leaseId: nat, owner: nat, group: nat, generation: nat, epoch: nat, result: nat, completedAt: nat)

  datatype TaskState = Queued(lastEpoch: nat) | Leased(lease: Lease) | Completed(done: Completion)

  datatype TaskStatus = StatusQueued | StatusLeased | StatusCompleted

  datatype Task = Task(ns: nat, objective: nat, createdAt: nat, revision: nat, state: TaskState)

  datatype Grant = Grant(leaseId: nat, owner: nat, group: nat, generation: nat, expiresAt: nat)

  datatype Fence = Fence(leaseId: nat, owner: nat, group: nat, generation: nat, epoch: nat, observedAt: nat)

  datatype TaskError =
    | NotQueued(status: TaskStatus) | NotLeased(status: TaskStatus)
    | StaleGroup | StaleOwner | StaleLeaseGeneration | StaleLeaseEpoch | StaleLeaseId
    | LeaseExpired | AlreadyCompleted | TaskCounterOverflow

  function NewTask(ns: nat, objective: nat, createdAt: nat): Task {
    Task(ns, objective, createdAt, 1, Queued(0))
  }

  function Status(t: Task): TaskStatus {
    match t.state
    case Queued(_) => StatusQueued
    case Leased(_) => StatusLeased
    case Completed(_) => StatusCompleted
  }

  /** The epoch of the most recent lease granted on this Task. */
  function Epoch(t: Task): nat {
    match t.state
    case Queued(e) => e
    case Leased(l) => l.epoch
    case Completed(d) => d.epoch
  }

  function ClaimTask(t: Task, g: Grant): Result<Task, TaskError> {
    if !t.state.Queued? then Err(NotQueued(Status(t)))
    else if t.state.lastEpoch >= U64_MAX || t.revision >= U64_MAX then Err(TaskCounterOverflow)
    else Ok(t.(revision := t.revision + 1,
               state := Leased(Lease(g.leaseId, g.owner, g.group, g.generation, t.state.lastEpoch + 1, g.expiresAt))))
  }

  function RequireActiveLease(t: Task, f: Fence): Result<Lease, TaskError> {
    if !t.state.Leased? then Err(NotLeased(Status(t)))
    else
      var l := t.state.lease;
      if l.group != f.group then Err(StaleGroup)
      else if l.owner != f.owner then Err(StaleOwner)
      else if l.generation != f.generation then Err(StaleLeaseGeneration)
      else if l.epoch != f.epoch then Err(StaleLeaseEpoch)
      else if l.leaseId != f.leaseId then Err(StaleLeaseId)
      else if l.expiresAt <= f.observedAt then Err(LeaseExpired)
      else Ok(l)
  }

  function RenewTask(t: Task, f: Fence, expiresAt: nat): Result<Task, TaskError> {
    var live := RequireActiveLease(t, f);
    if live.Err? then Err(live.error)
    else if t.revision >= U64_MAX then Err(TaskCounterOverflow)
    else Ok(t.(revision := t.revision + 1, state := Leased(live.value.(expiresAt := expiresAt))))
  }

  /** The flag says whether the completion is new, as opposed to a retry of a retained one. */
  function CompleteTask(t: Task, f: Fence, result: nat): Result<(Task, bool), TaskError> {
    if t.state.Completed? then
      if t.state.done.leaseId == f.leaseId && t.state.done.result == result then Ok((t, false))
      else Err(AlreadyCompleted)
    else
      var live := RequireActiveLease(t, f);
      if live.Err? then Err(live.error)
      else if t.revision >= U64_MAX then Err(TaskCounterOverflow)
      else
        var l := live.value;
        Ok((t.(revision := t.revision + 1,
               state := Completed(Completion(l.leaseId, l.owner, l.group, l.generation,
                                          l.epoch, result, f.observedAt))),
            true))
  }

  /** A leased Task put back in the queue keeps its epoch, so that the next claim exceeds it. */
  function Requeued(t: Task): Task
    requires t.state.Leased?
  {
    t.(revision := t.revision + 1, state := Queued(t.state.lease.epoch))
  }

  function RequeueIfExpired(t: Task, now: nat): Result<(Task, bool), TaskError> {
    if !t.state.Leased? || t.state.lease.expiresAt > now then Ok((t, false))
    else if t.revision >= U64_MAX then Err(TaskCounterOverflow)
    else Ok((Requeued(t), true))
  }

  function RequeueForMember(t: Task, group: nat, member: nat): Result<(Task, bool), TaskError> {
    if !t.state.Leased? || t.state.lease.group != group || t.state.lease.owner != member then Ok((t, false))
    else if t.revision >= U64_MAX then Err(TaskCounterOverflow)
    else Ok((Requeued(t), true))
  }
}
