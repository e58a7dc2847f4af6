/** The closeable queue of `CloseableQueue.py`: the bounded queue plus a
    closed flag. Each of `put`, `get`, `close` and `closed` holds the queue's
    mutex for its whole body, so each call is one atomic step over State. */
module Closeable {
  import opened Storage
  import opened Outcomes
  import Plain

  /** The plain queue's state plus `_closed`. */
  datatype State = State(policy: Policy, maxsize: int, items: seq<int>, closed: bool, unfinishedTasks: nat)

  datatype Step = Step(outcome: Outcome, next: State)

  /** The same queue seen without its closed flag. */
  function Abstract(s: State): Plain.State {
    Plain.State(s.policy, s.maxsize, s.items, s.unfinishedTasks)
  }

  predicate WithinBound(s: State) {
    Plain.WithinBound(Abstract(s))
  }

  predicate IsFull(s: State) {
    Plain.IsFull(Abstract(s))
  }

  /** `__init__`: the base queue's initial state, open. */
  function Initial(p: Policy, maxsize: int): (s: State)
    ensures WithinBound(s) && !s.closed && s.items == [] && s.unfinishedTasks == 0
    ensures Abstract(s) == Plain.Initial(p, maxsize)
  {
    State(p, maxsize, [], false, 0)
  }

  /** Which way `put` ends. Closure is checked after the negative-timeout
      test and wins over fullness: the wait predicate is "full and open". */
  function PutOutcome(s: State, block: bool, timeout: Timeout, deadlinePassed: bool): Outcome {
    if s.maxsize > 0 && block && Negative(timeout) then ValueError
    else if s.closed then Closed
    else if IsFull(s) then Stuck(block, timeout, deadlinePassed, Full)
    else Done
  }

  /** One `put`; `last` closes the queue in the same step, and only if the
      item was stored. */
  function PutStep(s: State, x: int, block: bool, timeout: Timeout, last: bool, deadlinePassed: bool): Step {
    var o := PutOutcome(s, block, timeout, deadlinePassed);
    if o == Done then
      Step(Done, s.(items := Insert(s.items, x),
                    unfinishedTasks := s.unfinishedTasks + 1,
                    closed := s.closed || last))
    else
      Step(o, s)
  }

  /** Which way `get` ends. The wait predicate is "empty and open"; a closed
      queue refuses only once it is also empty. */
  function GetOutcome(s: State, block: bool, timeout: Timeout, deadlinePassed: bool): Outcome {
    if block && Negative(timeout) then ValueError
    else if |s.items| == 0 && !s.closed then Stuck(block, timeout, deadlinePassed, Empty)
    else if |s.items| == 0 then Closed
    else Ok(Take(s.policy, s.items).head)
  }

  function GetStep(s: State, block: bool, timeout: Timeout, deadlinePassed: bool): Step {
    var o := GetOutcome(s, block, timeout, deadlinePassed);
    if o.Ok? then Step(o, s.(items := Take(s.policy, s.items).rest)) else Step(o, s)
  }

  /** `close`: sets the flag if it is not set yet, and does nothing otherwise. */
  function CloseStep(s: State): State {
    if s.closed then s else s.(closed := true)
  }

  /** `close` only raises the flag, and a second `close` changes nothing. */
  lemma CloseIdempotent(s: State)
    ensures CloseStep(s).closed
    ensures CloseStep(s) == s.(closed := true)
    ensures CloseStep(CloseStep(s)) == CloseStep(s)
    ensures s.closed ==> CloseStep(s) == s
  {
  }

  /** `put` on a closed queue stores nothing and changes nothing, whatever
      `block`, `timeout` and `last` are and even when the queue is full; it
      fails with Closed, or with ValueError when a bounded queue is given a
      blocking call with a negative timeout. */
  lemma PutOnClosed(s: State, x: int, block: bool, timeout: Timeout, last: bool, deadlinePassed: bool)
    requires s.closed
    ensures var r := PutStep(s, x, block, timeout, last, deadlinePassed);
      && r.next == s
      && (r.outcome == ValueError <==> s.maxsize > 0 && block && Negative(timeout))
      && (r.outcome != ValueError ==> r.outcome == Closed)
  {
  }

  /** `put` on an open queue: fails with Full when not blocking on a full
      bounded queue or when the deadline has passed, waits when blocked with
      no timeout or time left, refuses a negative timeout on a bounded
      blocking call, and otherwise stores the item and counts one task. */
  lemma PutOnOpen(s: State, x: int, block: bool, timeout: Timeout, last: bool, deadlinePassed: bool)
    requires !s.closed
    ensures var r := PutStep(s, x, block, timeout, last, deadlinePassed);
      && (r.outcome == ValueError <==> s.maxsize > 0 && block && Negative(timeout))
      && (r.outcome == Full <==>
            !(s.maxsize > 0 && block && Negative(timeout)) && IsFull(s)
            && (!block || (timeout.Seconds? && deadlinePassed)))
      && (r.outcome == MustWait <==>
            !(s.maxsize > 0 && block && Negative(timeout)) && IsFull(s)
            && block && (timeout.NoTimeout? || !deadlinePassed))
      && (r.outcome == Done <==> !(s.maxsize > 0 && block && Negative(timeout)) && !IsFull(s))
      && (r.outcome != Done ==> r.next == s)
      && (r.outcome == Done ==>
            r.next == s.(items := s.items + [x], unfinishedTasks := s.unfinishedTasks + 1, closed := last))
  {
  }

  /** `put(x, last=True)` stores `x` and closes in one step; when it fails,
      `last` has no effect on the flag. */
  lemma PutLast(s: State, x: int, block: bool, timeout: Timeout, deadlinePassed: bool)
    ensures var r := PutStep(s, x, block, timeout, true, deadlinePassed);
      && (r.outcome == Done ==> r.next.closed && r.next.items == s.items + [x])
      && (r.outcome != Done ==> r.next.closed == s.closed)
  {
  }

  /** No `put` pushes a bounded queue past `maxsize`. */
  lemma PutKeepsBound(s: State, x: int, block: bool, timeout: Timeout, last: bool, deadlinePassed: bool)
    requires WithinBound(s)
    ensures WithinBound(PutStep(s, x, block, timeout, last, deadlinePassed).next)
  {
  }

  /** `get` on a closed queue: an empty one answers Closed, a non-empty one
      still hands out the element the policy selects; only a blocking call
      with a negative timeout is refused first. */
  lemma GetOnClosed(s: State, block: bool, timeout: Timeout, deadlinePassed: bool)
    requires s.closed && !(block && Negative(timeout))
    ensures var r := GetStep(s, block, timeout, deadlinePassed);
      && (|s.items| == 0 ==> r == Step(Closed, s))
      && (|s.items| > 0 ==>
            var t := Take(s.policy, s.items);
            r == Step(Ok(t.head), s.(items := t.rest)))
  {
  }

  /** `get` fails without changing the state: ValueError for any blocking
      call with a negative timeout (even with items present), Empty on an
      empty open queue when not blocking or past the deadline, and MustWait
      on an empty open queue otherwise. */
  lemma GetFailures(s: State, block: bool, timeout: Timeout, deadlinePassed: bool)
    ensures var r := GetStep(s, block, timeout, deadlinePassed);
      && (r.outcome == ValueError <==> block && Negative(timeout))
      && (r.outcome == Empty <==>
            !(block && Negative(timeout)) && |s.items| == 0 && !s.closed
            && (!block || (timeout.Seconds? && deadlinePassed)))
      && (r.outcome == MustWait <==>
            !(block && Negative(timeout)) && |s.items| == 0 && !s.closed
            && block && (timeout.NoTimeout? || !deadlinePassed))
      && (r.outcome == Closed <==> !(block && Negative(timeout)) && |s.items| == 0 && s.closed)
      && (!r.outcome.Ok? ==> r.next == s)
  {
  }

  lemma GetKeepsBound(s: State, block: bool, timeout: Timeout, deadlinePassed: bool)
    requires WithinBound(s)
    ensures WithinBound(GetStep(s, block, timeout, deadlinePassed).next)
  {
  }

  /** The closeable `put` without `last`, and `get`, on an open queue behave
      exactly as the plain queue's: same outcome, same next state, still open. */
  lemma PutRefines(s: State, x: int, block: bool, timeout: Timeout, deadlinePassed: bool)
    requires !s.closed
    ensures var r := PutStep(s, x, block, timeout, false, deadlinePassed);
      var p := Plain.PutStep(Abstract(s), x, block, timeout, deadlinePassed);
      && r.outcome == p.outcome && Abstract(r.next) == p.next && !r.next.closed
  {
  }

  lemma GetRefines(s: State, block: bool, timeout: Timeout, deadlinePassed: bool)
    requires !s.closed
    ensures var r := GetStep(s, block, timeout, deadlinePassed);
      var p := Plain.GetStep(Abstract(s), block, timeout, deadlinePassed);
      && r.outcome == p.outcome && Abstract(r.next) == p.next && !r.next.closed
  {
  }

  /** A `get` or `put` blocked in its wait loop is released by `close`: its
      next wake-up ends with Closed, whatever the clock says. */
  lemma CloseReleasesWaiters(s: State, x: int, block: bool, timeout: Timeout, last: bool, d1: bool, d2: bool)
    ensures GetStep(s, block, timeout, d1).outcome == MustWait ==>
      GetStep(CloseStep(s), block, timeout, d2) == Step(Closed, CloseStep(s))
    ensures PutStep(s, x, block, timeout, last, d1).outcome == MustWait ==>
      PutStep(CloseStep(s), x, block, timeout, last, d2) == Step(Closed, CloseStep(s))
  {
  }

  /** A `get` waiting on an empty queue, released by `put(x, last=True)`
      with any blocking mode and timeout the put accepts, receives `x`; the
      call after it answers Closed. */
  lemma LastPutReleasesGetter(s: State, x: int, block: bool, timeout: Timeout, d1: bool,
                               pb: bool, pt: Timeout, d2: bool, d3: bool, d4: bool)
    requires GetStep(s, block, timeout, d1).outcome == MustWait
    requires !(s.maxsize > 0 && pb && Negative(pt))
    ensures var p := PutStep(s, x, pb, pt, true, d2);
      && p.outcome == Done
      && GetStep(p.next, block, timeout, d3).outcome == Ok(x)
      && GetStep(GetStep(p.next, block, timeout, d3).next, block, timeout, d4).outcome == Closed
  {
  }

  /** A call on the closeable queue. */
  datatype Op =
    | PutOp(item: int, block: bool, timeout: Timeout, last: bool, deadlinePassed: bool)
    | GetOp(block: bool, timeout: Timeout, deadlinePassed: bool)
    | CloseOp

  datatype Trace = Trace(outcomes: seq<Outcome>, final: State)

  /** One call; `close` returns None, written Done. */
  function Apply(s: State, op: Op): Step {
    match op
    case PutOp(x, b, t, l, d) => PutStep(s, x, b, t, l, d)
    case GetOp(b, t, d) => GetStep(s, b, t, d)
    case CloseOp => Step(Done, CloseStep(s))
  }

  function Run(s: State, ops: seq<Op>): Trace
    decreases |ops|
  {
    if ops == [] then Trace([], s)
    else
      var st := Apply(s, ops[0]);
      var rest := Run(st.next, ops[1..]);
      Trace([st.outcome] + rest.outcomes, rest.final)
  }

  /** Running two sequences of calls one after the other. */
  lemma {:induction false} RunAppend(s: State, a: seq<Op>, b: seq<Op>)
    ensures Run(s, a + b).final == Run(Run(s, a).final, b).final
    decreases |a|
  {
    if a != [] {
      assert (a + b)[0] == a[0] && (a + b)[1..] == a[1..] + b;
      RunAppend(Apply(s, a[0]).next, a[1..], b);
    } else {
      assert a + b == b;
    }
  }

  /** One call keeps the bound, and on a closed queue it keeps the flag and
      only removes elements. */
  lemma ApplyKeepsInvariants(s: State, op: Op)
    requires WithinBound(s)
    ensures var n := Apply(s, op).next;
      && WithinBound(n)
      && (s.closed ==> n.closed && multiset(n.items) <= multiset(s.items))
      && n.policy == s.policy && n.maxsize == s.maxsize
  {
    match op {
      case PutOp(x, b, t, l, d) =>
        PutKeepsBound(s, x, b, t, l, d);
        if s.closed {
          PutOnClosed(s, x, b, t, l, d);
        }
      case GetOp(b, t, d) =>
        GetKeepsBound(s, b, t, d);
        GetOnlyRemoves(s, b, t, d);
      case CloseOp =>
    }
  }

  /** A `get` never adds anything to the buffer and never touches the flag. */
  lemma GetOnlyRemoves(s: State, block: bool, timeout: Timeout, deadlinePassed: bool)
    ensures var n := GetStep(s, block, timeout, deadlinePassed).next;
      multiset(n.items) <= multiset(s.items) && n.closed == s.closed
  {
  }

  /** Along any run, the bound holds, the flag never goes back to false, and
      once closed the buffer only loses elements. */
  lemma {:induction false} RunKeepsInvariants(s: State, ops: seq<Op>)
    requires WithinBound(s)
    ensures var f := Run(s, ops).final;
      && WithinBound(f)
      && (s.closed ==> f.closed && multiset(f.items) <= multiset(s.items))
      && f.policy == s.policy && f.maxsize == s.maxsize
    decreases |ops|
  {
    if ops != [] {
      ApplyKeepsInvariants(s, ops[0]);
      RunKeepsInvariants(Apply(s, ops[0]).next, ops[1..]);
    }
  }

  /** `closed()` is a one-way latch: once some prefix of a run leaves the
      queue closed, every longer prefix does too. */
  lemma ClosedIsMonotonic(s: State, ops: seq<Op>, i: nat, j: nat)
    requires i <= j <= |ops|
    requires Run(s, ops[..i]).final.closed
    ensures Run(s, ops[..j]).final.closed
  {
    assert ops[..j] == ops[..i] + ops[i..j];
    RunAppend(s, ops[..i], ops[i..j]);
    RunKeepsClosed(Run(s, ops[..i]).final, ops[i..j]);
  }

  /** No call reopens a closed queue, whatever state it is in. */
  lemma {:induction false} RunKeepsClosed(s: State, ops: seq<Op>)
    requires s.closed
    ensures Run(s, ops).final.closed
    decreases |ops|
  {
    if ops != [] {
      match ops[0] {
        case PutOp(x, b, t, l, d) => PutOnClosed(s, x, b, t, l, d);
        case GetOp(b, t, d) => GetOnlyRemoves(s, b, t, d);
        case CloseOp =>
      }
      RunKeepsClosed(Apply(s, ops[0]).next, ops[1..]);
    }
  }

  /** A plain-queue call as a closeable-queue call (never `last`). */
  function Lift(op: Plain.Op): Op {
    match op
    case PutOp(x, b, t, d) => PutOp(x, b, t, false, d)
    case GetOp(b, t, d) => GetOp(b, t, d)
  }

  function LiftAll(ops: seq<Plain.Op>): (r: seq<Op>)
    ensures |r| == |ops|
    ensures forall i :: 0 <= i < |ops| ==> r[i] == Lift(ops[i])
  {
    if ops == [] then [] else [Lift(ops[0])] + LiftAll(ops[1..])
  }

  /** A closeable queue that is never closed behaves exactly like the plain
      queue: along any run of `put`s without `last` and `get`s it gives the
      same outcomes and ends in the same state, still open. */
  lemma {:induction false} NeverClosedRefines(s: State, ops: seq<Plain.Op>)
    requires !s.closed
    ensures var t := Run(s, LiftAll(ops));
      var p := Plain.Run(Abstract(s), ops);
      && t.outcomes == p.outcomes && Abstract(t.final) == p.final && !t.final.closed
    decreases |ops|
  {
    if ops != [] {
      var l := LiftAll(ops);
      assert l[1..] == LiftAll(ops[1..]);
      match ops[0] {
        case PutOp(x, b, t, d) => PutRefines(s, x, b, t, d);
        case GetOp(b, t, d) => GetRefines(s, b, t, d);
      }
      NeverClosedRefines(Apply(s, l[0]).next, ops[1..]);
    }
  }

  /** The queue object of `CloseableQueueFactory`; its storage policy is
      chosen at construction, as the three module-level classes do. */
  class CloseableQueue {
    const policy: Policy
    const maxsize: int
    var items: seq<int>
    var closed: bool
    var unfinishedTasks: nat

    function Model(): State
      reads this
    {
      State(policy, maxsize, items, closed, unfinishedTasks)
    }

    ghost predicate Valid()
      reads this
    {
      WithinBound(Model())
    }

    constructor (policy: Policy, maxsize: int)
      ensures Valid()
      ensures Model() == Initial(policy, maxsize)
    {
      this.policy := policy;
      this.maxsize := maxsize;
      items := [];
      closed := false;
      unfinishedTasks := 0;
    }

    /** `close()`. */
    method Close()
      requires Valid()
      modifies this
      ensures Valid()
      ensures Model() == CloseStep(old(Model()))
    {
      if !closed {
        closed := true;
      }
    }

    /** `closed()`: a snapshot of the flag. */
    method IsClosed() returns (r: bool)
      ensures r == Model().closed
    {
      r := closed;
    }

    /** `put(item, block, timeout, last)`; a wait loop whose predicate still
        holds ends the step with MustWait. */
    method Put(item: int, block: bool, timeout: Timeout, last: bool, deadlinePassed: bool) returns (o: Outcome)
      requires Valid()
      modifies this
      ensures Valid()
      ensures old(closed) ==> closed
      ensures Step(o, Model()) == PutStep(old(Model()), item, block, timeout, last, deadlinePassed)
    {
      if maxsize > 0 {
        if !block {
          if |items| == maxsize && !closed {
            return Full;
          }
        } else if timeout.NoTimeout? {
          if |items| == maxsize && !closed {
            return MustWait;
          }
        } else if timeout.seconds < 0.0 {
          return ValueError;
        } else {
          if |items| == maxsize && !closed {
            return if deadlinePassed then Full else MustWait;
          }
        }
      }
      if closed {
        return Closed;
      }
      items := Insert(items, item);
      unfinishedTasks := unfinishedTasks + 1;
      if last {
        closed := true;
      }
      return Done;
    }

    /** `get(block, timeout)`. */
    method Get(block: bool, timeout: Timeout, deadlinePassed: bool) returns (o: Outcome)
      requires Valid()
      modifies this
      ensures Valid()
      ensures closed == old(closed)
      ensures Step(o, Model()) == GetStep(old(Model()), block, timeout, deadlinePassed)
    {
      if !block {
        if |items| == 0 && !closed {
          return Empty;
        }
      } else if timeout.NoTimeout? {
        if |items| == 0 && !closed {
          return MustWait;
        }
      } else if timeout.seconds < 0.0 {
        return ValueError;
      } else {
        if |items| == 0 && !closed {
          return if deadlinePassed then Empty else MustWait;
        }
      }
      if closed && |items| == 0 {
        return Closed;
      }
      var t := Take(policy, items);
      items := t.rest;
      return Ok(t.head);
    }
  }
}
