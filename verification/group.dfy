/** Consumer Group membership: join, heartbeat, leave and bounded reaping of stale members. */
module Groups {
  import opened Order

  /** Capabilities are normalised on construction, so a set represents them exactly. */
  datatype Consumer = Consumer(capabilities: set<nat>, joinedAt: nat, heartbeatAt: nat, revision: nat)

  datatype Group = Group(ns: nat, generation: nat, revision: nat, consumers: map<nat, Consumer>)

  datatype GroupError =
    | StaleGeneration(expected: nat, actual: nat) | MemberNotFound(member: nat)
    | CapabilityConflict(member: nat) | MemberCapacityReached(max: nat) | InvalidMemberCapacity
    | GroupCounterOverflow

  datatype JoinOutcome = Added | Refreshed | Unchanged

  function NewGroup(ns: nat): Group {
    Group(ns, 0, 1, map[])
  }

  function Touch(g: Group, member: nat, now: nat): Result<Group, GroupError>
    requires member in g.consumers
  {
    var c := g.consumers[member];
    if c.revision >= U64_MAX || g.revision >= U64_MAX then Err(GroupCounterOverflow)
    else Ok(g.(revision := g.revision + 1,
               consumers := g.consumers[member := c.(heartbeatAt := now, revision := c.revision + 1)]))
  }

  function JoinGroup(g: Group, member: nat, capabilities: set<nat>, now: nat, max: nat)
    : Result<(Group, JoinOutcome), GroupError>
  {
    if member in g.consumers then
      if g.consumers[member].capabilities != capabilities then Err(CapabilityConflict(member))
      else if now <= g.consumers[member].heartbeatAt then Ok((g, Unchanged))
      else
        var touched := Touch(g, member, now);
        if touched.Err? then Err(touched.error) else Ok((touched.value, Refreshed))
    else if max == 0 then Err(InvalidMemberCapacity)
    else if |g.consumers| >= max then Err(MemberCapacityReached(max))
    else if g.generation >= U64_MAX || g.revision >= U64_MAX then Err(GroupCounterOverflow)
    else Ok((g.(generation := g.generation + 1, revision := g.revision + 1,
                consumers := g.consumers[member := Consumer(capabilities, now, now, 1)]), Added))
  }

  /** The flag says whether the heartbeat was newer than the recorded one. */
  function HeartbeatGroup(g: Group, member: nat, expectedGeneration: nat, now: nat): Result<(Group, bool), GroupError> {
    if g.generation != expectedGeneration then Err(StaleGeneration(expectedGeneration, g.generation))
    else if member !in g.consumers then Err(MemberNotFound(member))
    else if now <= g.consumers[member].heartbeatAt then Ok((g, false))
    else
      var touched := Touch(g, member, now);
      if touched.Err? then Err(touched.error) else Ok((touched.value, true))
  }

  /** Remove `members` in one membership change: generation and revision advance once. */
  function Without(g: Group, members: set<nat>): Group {
    g.(generation := g.generation + 1, revision := g.revision + 1, consumers := g.consumers - members)
  }

  function LeaveGroup(g: Group, member: nat, expectedGeneration: nat): Result<Group, GroupError> {
    if g.generation != expectedGeneration then Err(StaleGeneration(expectedGeneration, g.generation))
    else if member !in g.consumers then Err(MemberNotFound(member))
    else if g.generation >= U64_MAX || g.revision >= U64_MAX then Err(GroupCounterOverflow)
    else Ok(Without(g, {member}))
  }

  /** Stale members of one group, keyed by (heartbeat, member). */
  function StaleIn(g: Group, before: nat): set<Key> {
    set m | m in g.consumers && g.consumers[m].heartbeatAt <= before :: Key(g.consumers[m].heartbeatAt, m, 0)
  }

  function Members(keys: set<Key>): set<nat> {
    set k | k in keys :: k.id
  }

  /** Remove up to `max` stale members, oldest heartbeat first; the result also names them. */
  function ReapGroup(g: Group, before: nat, max: nat): Result<(Group, set<Key>), GroupError> {
    if max == 0 then Err(InvalidMemberCapacity)
    else
      var stale := FirstN(StaleIn(g, before), max);
      if stale == {} then Ok((g, {}))
      else if g.generation >= U64_MAX || g.revision >= U64_MAX then Err(GroupCounterOverflow)
      else Ok((Without(g, Members(stale)), stale))
  }
}
