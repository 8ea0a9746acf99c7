/** When the derived indexes agree with the authoritative maps, and which updates keep them so. */
module Coherence {
  import opened Order
  import opened Tasks
  import opened Groups
  import opened BrokerState
  import opened BrokerMachine

  predicate IsReady(tasks: map<nat, Task>, ns: nat, k: Key) {
    k.id in tasks && tasks[k.id].ns == ns && tasks[k.id].state.Queued? && k == ReadyKey(k.id, tasks[k.id])
  }

  predicate IsDone(tasks: map<nat, Task>, k: Key) {
    k.id in tasks && tasks[k.id].state.Completed? && k == Key(tasks[k.id].state.done.completedAt, k.id, 0)
  }

  /** Exactly one ready entry per queued Task, in its own namespace, and no other entry. */
  ghost predicate ReadyOk(tasks: map<nat, Task>, ready: map<nat, multiset<Key>>) {
    forall ns: nat, k: Key :: HeapAt(ready, ns)[k] == if IsReady(tasks, ns, k) then 1 else 0
  }

  /** Every live lease outside `skip` has its own expiration entry in its Task's namespace. */
  ghost predicate EveryLeaseExpires(tasks: map<nat, Task>, expirations: map<nat, multiset<Key>>, skip: set<nat>) {
    forall t :: t in tasks && tasks[t].state.Leased? && t !in skip ==>
      LeaseKey(t, tasks[t].state.lease) in HeapAt(expirations, tasks[t].ns)
  }

  /** No entry of another namespace names a live lease; entries that name no live lease may linger. */
  ghost predicate NoForeignMatch(tasks: map<nat, Task>, expirations: map<nat, multiset<Key>>) {
    forall ns: nat, k: Key :: k in HeapAt(expirations, ns) && Matches(tasks, k) ==> tasks[k.id].ns == ns
  }

  /** The active-lease map is exactly the leased Tasks, so active lease ids are unique. */
  ghost predicate ActiveOk(tasks: map<nat, Task>, active: map<nat, nat>) {
    && (forall t :: t in tasks && tasks[t].state.Leased? ==>
          tasks[t].state.lease.leaseId in active && active[tasks[t].state.lease.leaseId] == t)
    && (forall l :: l in active ==>
          active[l] in tasks && tasks[active[l]].state.Leased? && tasks[active[l]].state.lease.leaseId == l)
  }

  ghost predicate HeldOk(tasks: map<nat, Task>, held: map<(nat, nat), set<nat>>, skip: set<nat>) {
    forall group: nat, member: nat, t: nat ::
      t in LeasesOf(held, (group, member)) <==> t in tasks && t !in skip && HeldBy(tasks[t], group, member)
  }

  ghost predicate CompletedOk(tasks: map<nat, Task>, completed: multiset<Key>) {
    forall k: Key :: completed[k] == if IsDone(tasks, k) then 1 else 0
  }

  ghost predicate TaskCountsOk(tasks: map<nat, Task>, counts: map<nat, nat>) {
    forall ns: nat :: CountAt(counts, ns) == |InNamespace(tasks, ns)|
  }

  ghost predicate GroupCountsOk(groups: map<nat, Group>, counts: map<nat, nat>) {
    forall ns: nat :: CountAt(counts, ns) == |GroupsInNamespace(groups, ns)|
  }

  /** Agreement, except that the leases in `unexpired` have lost their expiration entry and those in
      `unlisted` their member entry: the situation in the middle of a recovery or a departure. */
  ghost predicate Agrees(m: Machine, unexpired: set<nat>, unlisted: set<nat>) {
    && ReadyOk(m.state.tasks, m.ready)
    && EveryLeaseExpires(m.state.tasks, m.expirations, unexpired)
    && NoForeignMatch(m.state.tasks, m.expirations)
    && ActiveOk(m.state.tasks, m.active)
    && HeldOk(m.state.tasks, m.held, unlisted)
    && CompletedOk(m.state.tasks, m.completed)
    && TaskCountsOk(m.state.tasks, m.taskCounts)
    && GroupCountsOk(m.state.groups, m.groupCounts)
  }

  ghost predicate Coherent(m: Machine) {
    Agrees(m, {}, {})
  }

  lemma Parts(m: Machine)
    requires Coherent(m)
    ensures ReadyOk(m.state.tasks, m.ready) && CompletedOk(m.state.tasks, m.completed)
    ensures EveryLeaseExpires(m.state.tasks, m.expirations, {}) && NoForeignMatch(m.state.tasks, m.expirations)
    ensures ActiveOk(m.state.tasks, m.active) && HeldOk(m.state.tasks, m.held, {})
    ensures TaskCountsOk(m.state.tasks, m.taskCounts) && GroupCountsOk(m.state.groups, m.groupCounts)
  {}

  lemma Whole(m: Machine)
    requires ReadyOk(m.state.tasks, m.ready) && CompletedOk(m.state.tasks, m.completed)
    requires EveryLeaseExpires(m.state.tasks, m.expirations, {}) && NoForeignMatch(m.state.tasks, m.expirations)
    requires ActiveOk(m.state.tasks, m.active) && HeldOk(m.state.tasks, m.held, {})
    requires TaskCountsOk(m.state.tasks, m.taskCounts) && GroupCountsOk(m.state.groups, m.groupCounts)
    ensures Coherent(m)
  {}

  lemma RestatedAgrees(m: Machine, revision: nat, changes: Changes)
    requires Coherent(m)
    ensures Coherent(m.(state := m.state.(revision := revision), changes := changes))
  {}

  // ---- One Task `t` becomes `task`: each index follows on its own ----

  lemma CountsKept(tasks: map<nat, Task>, counts: map<nat, nat>, t: nat, task: Task)
    requires TaskCountsOk(tasks, counts) && t in tasks && tasks[t].ns == task.ns
    ensures TaskCountsOk(tasks[t := task], counts)
  {
    forall ns: nat ensures InNamespace(tasks[t := task], ns) == InNamespace(tasks, ns) {}
  }

  lemma ReadyPushed(tasks: map<nat, Task>, ready: map<nat, multiset<Key>>, t: nat, task: Task)
    requires ReadyOk(tasks, ready)
    requires !IsQueued(tasks, t) && task.state.Queued?
    ensures ReadyOk(tasks[t := task], Push(ready, task.ns, ReadyKey(t, task)))
  {
    var ready' := Push(ready, task.ns, ReadyKey(t, task));
    PushCounts(ready, task.ns, ReadyKey(t, task));
    forall ns: nat, k: Key
      ensures HeapAt(ready', ns)[k] == if IsReady(tasks[t := task], ns, k) then 1 else 0
    {}
  }

  lemma ReadyPopped(
    tasks: map<nat, Task>, ready: map<nat, multiset<Key>>, t: nat, task: Task, ready': map<nat, multiset<Key>>)
    requires ReadyOk(tasks, ready)
    requires IsQueued(tasks, t) && !task.state.Queued?
    requires forall ns: nat, k: Key :: HeapAt(ready', ns)[k] ==
               if ns == tasks[t].ns && k == ReadyKey(t, tasks[t]) then 0 else HeapAt(ready, ns)[k]
    ensures ReadyOk(tasks[t := task], ready')
  {}

  lemma ReadyKept(tasks: map<nat, Task>, ready: map<nat, multiset<Key>>, t: nat, task: Task)
    requires ReadyOk(tasks, ready)
    requires !IsQueued(tasks, t) && !task.state.Queued?
    ensures ReadyOk(tasks[t := task], ready)
  {}

  predicate IsCompleted(tasks: map<nat, Task>, t: nat) {
    t in tasks && tasks[t].state.Completed?
  }

  lemma CompletedKept(tasks: map<nat, Task>, completed: multiset<Key>, t: nat, task: Task)
    requires CompletedOk(tasks, completed)
    requires !IsCompleted(tasks, t) && !task.state.Completed?
    ensures CompletedOk(tasks[t := task], completed)
  {}

  lemma CompletedPushed(tasks: map<nat, Task>, completed: multiset<Key>, t: nat, task: Task)
    requires CompletedOk(tasks, completed)
    requires !IsCompleted(tasks, t) && task.state.Completed?
    ensures CompletedOk(tasks[t := task], completed + multiset{Key(task.state.done.completedAt, t, 0)})
  {}

  lemma ExpirationsDropped(
    tasks: map<nat, Task>, expirations: map<nat, multiset<Key>>, skip: set<nat>, t: nat, task: Task)
    requires EveryLeaseExpires(tasks, expirations, skip) && NoForeignMatch(tasks, expirations)
    requires !task.state.Leased?
    ensures EveryLeaseExpires(tasks[t := task], expirations, skip - {t})
    ensures NoForeignMatch(tasks[t := task], expirations)
  {}

  /** An entry for exactly this key waits in some other namespace. */
  ghost predicate Foreign(expirations: map<nat, multiset<Key>>, ns: nat, k: Key) {
    exists other: nat :: other != ns && k in HeapAt(expirations, other)
  }

  lemma LeaseExpiresPushed(tasks: map<nat, Task>, expirations: map<nat, multiset<Key>>, t: nat, task: Task)
    requires EveryLeaseExpires(tasks, expirations, {})
    requires task.state.Leased?
    ensures EveryLeaseExpires(tasks[t := task], Push(expirations, task.ns, LeaseKey(t, task.state.lease)), {})
  {}

  /** The new lease is safe from other namespaces exactly when none of them holds its key. */
  lemma ForeignPushed(tasks: map<nat, Task>, expirations: map<nat, multiset<Key>>, t: nat, task: Task)
    requires NoForeignMatch(tasks, expirations)
    requires task.state.Leased?
    ensures NoForeignMatch(tasks[t := task], Push(expirations, task.ns, LeaseKey(t, task.state.lease))) <==>
            !Foreign(expirations, task.ns, LeaseKey(t, task.state.lease))
  {
    var key := LeaseKey(t, task.state.lease);
    var tasks', expirations' := tasks[t := task], Push(expirations, task.ns, key);
    if Foreign(expirations, task.ns, key) {
      var other: nat :| other != task.ns && key in HeapAt(expirations, other);
      PushHas(expirations, task.ns, key, other, key);
      assert key in HeapAt(expirations', other) && Matches(tasks', key);
    } else {
      forall ns: nat, k: Key | k in HeapAt(expirations', ns) && Matches(tasks', k) ensures tasks'[k.id].ns == ns {
        PushHas(expirations, task.ns, key, ns, k);
        assert k.id != t ==> Matches(tasks, k);
      }
    }
  }

  lemma ActiveDropped(tasks: map<nat, Task>, active: map<nat, nat>, t: nat, task: Task)
    requires ActiveOk(tasks, active)
    requires t in tasks && tasks[t].state.Leased? && !task.state.Leased?
    ensures ActiveOk(tasks[t := task], active - {tasks[t].state.lease.leaseId})
  {}

  lemma ActiveAdded(tasks: map<nat, Task>, active: map<nat, nat>, t: nat, task: Task)
    requires ActiveOk(tasks, active)
    requires (t in tasks ==> !tasks[t].state.Leased?) && task.state.Leased? && task.state.lease.leaseId !in active
    ensures ActiveOk(tasks[t := task], active[task.state.lease.leaseId := t])
  {}

  lemma HeldDropped(tasks: map<nat, Task>, held: map<(nat, nat), set<nat>>, skip: set<nat>, t: nat, task: Task)
    requires HeldOk(tasks, held, skip)
    requires t in tasks && tasks[t].state.Leased? && !task.state.Leased?
    ensures HeldOk(tasks[t := task],
                   RemoveHeld(held, (tasks[t].state.lease.group, tasks[t].state.lease.owner), t), skip - {t})
  {}

  lemma HeldAdded(tasks: map<nat, Task>, held: map<(nat, nat), set<nat>>, t: nat, task: Task)
    requires HeldOk(tasks, held, {})
    requires (t in tasks ==> !tasks[t].state.Leased?) && task.state.Leased?
    ensures HeldOk(tasks[t := task], AddHeld(held, (task.state.lease.group, task.state.lease.owner), t), {})
  {}

  /** Neither before nor after the update is the Task leased. */
  lemma UnleasedKept(tasks: map<nat, Task>, active: map<nat, nat>, held: map<(nat, nat), set<nat>>, t: nat, task: Task)
    requires ActiveOk(tasks, active) && HeldOk(tasks, held, {})
    requires (t in tasks ==> !tasks[t].state.Leased?) && !task.state.Leased?
    ensures ActiveOk(tasks[t := task], active) && HeldOk(tasks[t := task], held, {})
  {}

  // ---- The five single-Task transitions ----

  lemma RequeueAgrees(m: Machine, t: nat, unexpired: set<nat>, unlisted: set<nat>)
    requires Agrees(m, unexpired, unlisted)
    requires t in m.state.tasks && m.state.tasks[t].state.Leased?
    ensures Agrees(RequeueOne(m, t, m.state.tasks[t].ns), unexpired - {t}, unlisted - {t})
  {
    var tasks, task := m.state.tasks, Requeued(m.state.tasks[t]);
    CountsKept(tasks, m.taskCounts, t, task);
    ReadyPushed(tasks, m.ready, t, task);
    CompletedKept(tasks, m.completed, t, task);
    ExpirationsDropped(tasks, m.expirations, unexpired, t, task);
    ActiveDropped(tasks, m.active, t, task);
    HeldDropped(tasks, m.held, unlisted, t, task);
  }
}
