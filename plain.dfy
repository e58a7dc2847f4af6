/** The bounded queue of `__init__.py` (`Queue.Queue.put` and `get` without
    any close): each call's locked section is one atomic step over State. */
module Plain {
  import opened Storage
  import opened Outcomes

  /** What a locked section reads and writes: the buffer behind `_put`,
      `_get` and `_qsize`, the bound (`<= 0` is unbounded) and the count of
      items put but not yet marked done. */
  datatype State = State(policy: Policy, maxsize: int, items: seq<int>, unfinishedTasks: nat)

  /** The result of one step: how the call ends and the state it leaves. */
  datatype Step = Step(outcome: Outcome, next: State)

  /** The size bound every reachable state keeps. */
  predicate WithinBound(s: State) {
    s.maxsize > 0 ==> |s.items| <= s.maxsize
  }

  /** `self._qsize() == self.maxsize` on a bounded queue. */
  predicate IsFull(s: State) {
    s.maxsize > 0 && |s.items| == s.maxsize
  }

  /** `Queue.__init__(maxsize)`. */
  function Initial(p: Policy, maxsize: int): (s: State)
    ensures WithinBound(s) && s.items == [] && s.unfinishedTasks == 0
    ensures s.policy == p && s.maxsize == maxsize
  {
    State(p, maxsize, [], 0)
  }

  /** Which way `put` ends: a negative timeout is refused first, but only on a
      bounded queue under a blocking call; an unbounded queue never waits. */
  function PutOutcome(s: State, block: bool, timeout: Timeout, deadlinePassed: bool): Outcome {
    if s.maxsize > 0 && block && Negative(timeout) then ValueError
    else if IsFull(s) then Stuck(block, timeout, deadlinePassed, Full)
    else Done
  }

  /** One `put`: only a `Done` outcome stores the item and counts a task. */
  function PutStep(s: State, x: int, block: bool, timeout: Timeout, deadlinePassed: bool): Step {
    var o := PutOutcome(s, block, timeout, deadlinePassed);
    if o == Done then
      Step(Done, s.(items := Insert(s.items, x), unfinishedTasks := s.unfinishedTasks + 1))
    else
      Step(o, s)
  }

  /** Which way `get` ends: every blocking call with a negative timeout is
      refused, even when items are present. */
  function GetOutcome(s: State, block: bool, timeout: Timeout, deadlinePassed: bool): Outcome {
    if block && Negative(timeout) then ValueError
    else if |s.items| == 0 then Stuck(block, timeout, deadlinePassed, Empty)
    else Ok(Take(s.policy, s.items).head)
  }

  /** One `get`: only an `Ok` outcome removes the item it returns. */
  function GetStep(s: State, block: bool, timeout: Timeout, deadlinePassed: bool): Step {
    var o := GetOutcome(s, block, timeout, deadlinePassed);
    if o.Ok? then Step(o, s.(items := Take(s.policy, s.items).rest)) else Step(o, s)
  }

  /** `put` on a full bounded queue: fails with Full without blocking (the
      timeout is then ignored, even a negative one), waits without a timeout,
      fails with Full once the deadline passes, and leaves the state as it
      was on each of those paths. */
  lemma PutOnFull(s: State, x: int, block: bool, timeout: Timeout, deadlinePassed: bool)
    requires IsFull(s) && !(block && Negative(timeout))
    ensures var r := PutStep(s, x, block, timeout, deadlinePassed);
      && r.next == s
      && (!block ==> r.outcome == Full)
      && (block && timeout.NoTimeout? ==> r.outcome == MustWait)
      && (block && timeout.Seconds? ==> r.outcome == if deadlinePassed then Full else MustWait)
  {
  }

  /** `put` on an unbounded queue always stores its item, whatever the
      blocking mode, the timeout (even a negative one) and the clock. */
  lemma PutUnbounded(s: State, x: int, block: bool, timeout: Timeout, deadlinePassed: bool)
    requires s.maxsize <= 0
    ensures PutStep(s, x, block, timeout, deadlinePassed)
      == PutStep(s, x, true, NoTimeout, false)
      == Step(Done, s.(items := s.items + [x], unfinishedTasks := s.unfinishedTasks + 1))
  {
  }

  /** `put` succeeds exactly when the timeout is acceptable and there is
      room; a success appends one item and counts one task, and every other
      outcome leaves the state unchanged. */
  lemma PutEffect(s: State, x: int, block: bool, timeout: Timeout, deadlinePassed: bool)
    ensures var r := PutStep(s, x, block, timeout, deadlinePassed);
      && (r.outcome == Done <==> !(s.maxsize > 0 && block && Negative(timeout)) && !IsFull(s))
      && (r.outcome == ValueError <==> s.maxsize > 0 && block && Negative(timeout))
      && (r.outcome == Done ==>
            r.next == s.(items := s.items + [x], unfinishedTasks := s.unfinishedTasks + 1))
      && (r.outcome != Done ==> r.next == s)
  {
  }

  /** No `put` pushes a bounded queue past `maxsize`. */
  lemma PutKeepsBound(s: State, x: int, block: bool, timeout: Timeout, deadlinePassed: bool)
    requires WithinBound(s)
    ensures WithinBound(PutStep(s, x, block, timeout, deadlinePassed).next)
  {
  }

  /** `get` fails in three ways, each leaving the state unchanged: Empty for a
      non-blocking call or an expired deadline on an empty queue, ValueError
      for a negative timeout, MustWait for an empty queue with time left. */
  lemma GetFailures(s: State, block: bool, timeout: Timeout, deadlinePassed: bool)
    ensures var r := GetStep(s, block, timeout, deadlinePassed);
      && (r.outcome == ValueError <==> block && Negative(timeout))
      && (r.outcome == Empty <==>
            !(block && Negative(timeout)) && |s.items| == 0
            && (!block || (timeout.Seconds? && deadlinePassed)))
      && (!r.outcome.Ok? ==> r.next == s)
  {
  }

  /** A `get` that may proceed on a non-empty queue removes and returns the
      element the policy selects, and changes nothing else. */
  lemma GetSucceeds(s: State, block: bool, timeout: Timeout, deadlinePassed: bool)
    requires |s.items| > 0 && !(block && Negative(timeout))
    ensures var r := GetStep(s, block, timeout, deadlinePassed);
      && r.outcome == Ok(Take(s.policy, s.items).head)
      && r.next == s.(items := Take(s.policy, s.items).rest)
      && multiset(s.items) == multiset(r.next.items) + multiset{r.outcome.item}
  {
  }

  lemma GetKeepsBound(s: State, block: bool, timeout: Timeout, deadlinePassed: bool)
    requires WithinBound(s)
    ensures WithinBound(GetStep(s, block, timeout, deadlinePassed).next)
  {
  }

  /** A call on the plain queue, with the arguments of `put` or `get`. */
  datatype Op =
    | PutOp(item: int, block: bool, timeout: Timeout, deadlinePassed: bool)
    | GetOp(block: bool, timeout: Timeout, deadlinePassed: bool)

  /** The outcomes of a sequence of calls, in order, and the final state. */
  datatype Trace = Trace(outcomes: seq<Outcome>, final: State)

  function Apply(s: State, op: Op): Step {
    match op
    case PutOp(x, b, t, d) => PutStep(s, x, b, t, d)
    case GetOp(b, t, d) => GetStep(s, b, t, d)
  }

  function Run(s: State, ops: seq<Op>): Trace
    decreases |ops|
  {
    if ops == [] then Trace([], s)
    else
      var st := Apply(s, ops[0]);
      var rest := Run(st.next, ops[1..]);
      Trace([st.outcome] + rest.outcomes, rest.final)
  }

  /** Number of successful `put`s among some outcomes. */
  function Puts(os: seq<Outcome>): nat {
    if os == [] then 0 else (if os[0] == Done then 1 else 0) + Puts(os[1..])
  }

  /** Number of successful `get`s among some outcomes. */
  function Gets(os: seq<Outcome>): nat {
    if os == [] then 0 else (if os[0].Ok? then 1 else 0) + Gets(os[1..])
  }

  /** One call keeps the bound; a successful `put` adds one item and one
      task, a successful `get` removes one item, and nothing else changes
      the size or the count. */
  lemma ApplyAccounting(s: State, op: Op)
    requires WithinBound(s)
    ensures var st := Apply(s, op);
      && WithinBound(st.next)
      && st.next.unfinishedTasks == s.unfinishedTasks + (if st.outcome == Done then 1 else 0)
      && |st.next.items| + (if st.outcome.Ok? then 1 else 0) == |s.items| + (if st.outcome == Done then 1 else 0)
      && st.next.policy == s.policy && st.next.maxsize == s.maxsize
  {
    match op {
      case PutOp(x, b, t, d) => PutKeepsBound(s, x, b, t, d);
      case GetOp(b, t, d) => GetKeepsBound(s, b, t, d);
    }
  }

  /** Counting over one outcome followed by others. */
  lemma OutcomesTail(o: Outcome, os: seq<Outcome>)
    ensures Puts([o] + os) == (if o == Done then 1 else 0) + Puts(os)
    ensures Gets([o] + os) == (if o.Ok? then 1 else 0) + Gets(os)
  {
    assert ([o] + os)[1..] == os;
  }

  /** Along any run the bound holds, every successful `put` adds exactly one
      item and one unfinished task, and every successful `get` removes
      exactly one item. */
  lemma {:induction false} RunAccounting(s: State, ops: seq<Op>)
    requires WithinBound(s)
    ensures var t := Run(s, ops);
      && WithinBound(t.final)
      && t.final.unfinishedTasks == s.unfinishedTasks + Puts(t.outcomes)
      && |t.final.items| + Gets(t.outcomes) == |s.items| + Puts(t.outcomes)
      && t.final.policy == s.policy && t.final.maxsize == s.maxsize
    decreases |ops|
  {
    if ops != [] {
      var st := Apply(s, ops[0]);
      ApplyAccounting(s, ops[0]);
      RunAccounting(st.next, ops[1..]);
      OutcomesTail(st.outcome, Run(st.next, ops[1..]).outcomes);
    }
  }

  /** The queue object: each method is one locked section of `__init__.py`. */
  class PlainQueue {
    const policy: Policy
    const maxsize: int
    var items: seq<int>
    var unfinishedTasks: nat

    function Model(): State
      reads this
    {
      State(policy, maxsize, items, unfinishedTasks)
    }

    ghost predicate Valid()
      reads this
    {
      WithinBound(Model())
    }

    constructor (policy: Policy, maxsize: int)
      ensures Valid()
      ensures Model() == Initial(policy, maxsize)
    {
      this.policy := policy;
      this.maxsize := maxsize;
      items := [];
      unfinishedTasks := 0;
    }

    /** `put(item, block, timeout)`; a wait loop whose predicate still holds
        ends the step with MustWait. */
    method Put(item: int, block: bool, timeout: Timeout, deadlinePassed: bool) returns (o: Outcome)
      requires Valid()
      modifies this
      ensures Valid()
      ensures Step(o, Model()) == PutStep(old(Model()), item, block, timeout, deadlinePassed)
    {
      if maxsize > 0 {
        if !block {
          if |items| == maxsize {
            return Full;
          }
        } else if timeout.NoTimeout? {
          if |items| == maxsize {
            return MustWait;
          }
        } else if timeout.seconds < 0.0 {
          return ValueError;
        } else {
          if |items| == maxsize {
            return if deadlinePassed then Full else MustWait;
          }
        }
      }
      items := Insert(items, item);
      unfinishedTasks := unfinishedTasks + 1;
      return Done;
    }

    /** `get(block, timeout)`. */
    method Get(block: bool, timeout: Timeout, deadlinePassed: bool) returns (o: Outcome)
      requires Valid()
      modifies this
      ensures Valid()
      ensures Step(o, Model()) == GetStep(old(Model()), block, timeout, deadlinePassed)
    {
      if !block {
        if |items| == 0 {
          return Empty;
        }
      } else if timeout.NoTimeout? {
        if |items| == 0 {
          return MustWait;
        }
      } else if timeout.seconds < 0.0 {
        return ValueError;
      } else {
        if |items| == 0 {
          return if deadlinePassed then Empty else MustWait;
        }
      }
      var t := Take(policy, items);
      items := t.rest;
      return Ok(t.head);
    }
  }
}
