/** Runs: a log of committed commands applied one after another. */
module Runs {
  import opened Order
  import opened BrokerState
  import opened BrokerMachine

  /** The authoritative state that a log means. */
  function StateAfter(s: State, log: seq<Command>): State
    decreases |log|
  {
    if log == [] then s else StateAfter(Step(s, log[0]).state, log[1..])
  }

  /** The replies that a log means. */
  function RepliesOf(s: State, log: seq<Command>): seq<Result<Reply, Error>>
    decreases |log|
  {
    if log == [] then [] else [Step(s, log[0]).reply] + RepliesOf(Step(s, log[0]).state, log[1..])
  }

  /** The indexed machine after a log, and the replies it gave. */
  function After(m: Machine, log: seq<Command>): Machine
    decreases |log|
  {
    if log == [] then m else After(Exec(m, log[0]).m, log[1..])
  }

  function Replies(m: Machine, log: seq<Command>): seq<Result<Reply, Error>>
    decreases |log|
  {
    if log == [] then [] else [Exec(m, log[0]).reply] + Replies(Exec(m, log[0]).m, log[1..])
  }
}
