/** The arguments and results shared by the plain and the closeable queue. */
module Outcomes {

  /** The `timeout` argument of `put` and `get`: `None`, or a number of seconds. */
  datatype Timeout = NoTimeout | Seconds(seconds: real)

  /** How one locked step of `put` or `get` ends. `Done` is a `put` that
      stored its item (Python returns `None`); `Ok` is a `get` that removed
      one. `Full`, `Empty`, `Closed` and `ValueError` are the exceptions the
      source raises. `MustWait` is a blocking call whose wait predicate still
      holds, so it cannot finish in this step. */
  datatype Outcome = Ok(item: int) | Done | Full | Empty | Closed | ValueError | MustWait

  predicate Negative(t: Timeout) {
    t.Seconds? && t.seconds < 0.0
  }

  /** How a call ends when it finds its wait predicate true (buffer full for
      `put`, empty for `get`): a non-blocking call fails at once, an untimed
      blocking call waits, and a timed one fails only once its deadline has
      passed. `deadlinePassed` stands for `endtime - _time() <= 0.0`. */
  function Stuck(block: bool, timeout: Timeout, deadlinePassed: bool, failure: Outcome): (o: Outcome)
    requires failure == Full || failure == Empty
    ensures o == failure || o == MustWait
    ensures o == failure <==> !block || (timeout.Seconds? && deadlinePassed)
  {
    if !block then failure
    else if timeout.NoTimeout? then MustWait
    else if deadlinePassed then failure
    else MustWait
  }
}
