/** The convenience loops of `CloseableQueue.py`: `dequeue` drains a queue
    into the values it yields, and `enqueue` feeds values into a queue. Each
    is specified by a function over the closeable queue's State and
    implemented as a loop of successive `get` or `put` calls. */
module Iteration {
  import opened Storage
  import opened Outcomes
  import opened Closeable

  /** The keyword arguments passed on to every `get` (`getargs`). */
  datatype GetArgs = GetArgs(block: bool, timeout: Timeout, deadlinePassed: bool)

  /** The keyword arguments passed on to every `put` (`putargs`). */
  datatype PutArgs = PutArgs(block: bool, timeout: Timeout, last: bool, deadlinePassed: bool)

  /** `on_empty`: `'raise'`, `'stop'`, or any other value, yielded once. */
  datatype OnEmpty = Raise | Stop | Yield(sentinel: int)

  /** How a loop ends: normally (StopIteration, or the end of the input), by
      an exception propagating out of it, or stuck in a call that must wait. */
  datatype End = Finished | Raised(error: Outcome) | Blocked

  datatype DrainResult = DrainResult(yielded: seq<int>, end: End, final: State)

  datatype FeedResult = FeedResult(end: End, final: State)

  /** A successful `get` shortens the buffer by one. */
  lemma GetShrinks(s: State, g: GetArgs)
    ensures var r := GetStep(s, g.block, g.timeout, g.deadlinePassed);
      r.outcome.Ok? ==> |r.next.items| == |s.items| - 1
  {
  }

  /** A drain result with some values yielded before it. */
  function After(ys: seq<int>, r: DrainResult): DrainResult {
    r.(yielded := ys + r.yielded)
  }

  lemma AfterTwice(xs: seq<int>, ys: seq<int>, r: DrainResult)
    ensures After(xs, After(ys, r)) == After(xs + ys, r)
  {
    assert xs + (ys + r.yielded) == (xs + ys) + r.yielded;
  }

  /** How `dequeue` ends on a `get` that did not return an item: Closed is a
      normal end; Empty is re-raised, ends, or yields the sentinel once, as
      `on_empty` says; ValueError propagates; a waiting call stays blocked. */
  function Ending(o: Outcome, onEmpty: OnEmpty, s: State): DrainResult {
    match o
    case Closed => DrainResult([], Finished, s)
    case Empty =>
      (match onEmpty
       case Raise => DrainResult([], Raised(Empty), s)
       case Stop => DrainResult([], Finished, s)
       case Yield(v) => DrainResult([v], Finished, s))
    case MustWait => DrainResult([], Blocked, s)
    case _ => DrainResult([], Raised(o), s)
  }

  /** What `dequeue(q, getargs, on_empty)` yields and how it ends. */
  function Drain(s: State, g: GetArgs, onEmpty: OnEmpty): DrainResult
    decreases |s.items|
  {
    var r := GetStep(s, g.block, g.timeout, g.deadlinePassed);
    if r.outcome.Ok? then
      GetShrinks(s, g);
      After([r.outcome.item], Drain(r.next, g, onEmpty))
    else
      Ending(r.outcome, onEmpty, r.next)
  }

  /** What `enqueue(it, q, putargs, close=close)` leaves behind: every value
      is put in turn; an exception from `put` ends the loop with the queue
      left as it is, and only a loop that ran to the end may close. */
  function Feed(s: State, xs: seq<int>, a: PutArgs, close: bool): FeedResult
    decreases |xs|
  {
    if xs == [] then FeedResult(Finished, if close then CloseStep(s) else s)
    else
      var r := PutStep(s, xs[0], a.block, a.timeout, a.last, a.deadlinePassed);
      if r.outcome == Done then Feed(r.next, xs[1..], a, close)
      else if r.outcome == MustWait then FeedResult(Blocked, r.next)
      else FeedResult(Raised(r.outcome), r.next)
  }

  /** One turn of `dequeue`'s loop: a `get` that returned an item yields it
      and the drain goes on from the shorter buffer; any other outcome ends
      the drain as `Ending` says. */
  lemma DrainUnfold(s: State, g: GetArgs, onEmpty: OnEmpty, o: Outcome, next: State)
    requires Step(o, next) == GetStep(s, g.block, g.timeout, g.deadlinePassed)
    ensures o.Ok? ==> |next.items| < |s.items|
    ensures o.Ok? ==> Drain(s, g, onEmpty) == After([o.item], Drain(next, g, onEmpty))
    ensures !o.Ok? ==> Drain(s, g, onEmpty) == Ending(o, onEmpty, next)
  {
    GetShrinks(s, g);
  }

  /** One turn of `enqueue`'s loop, at input position `i`: a `put` that
      stored its value feeds the rest; any other outcome ends the loop with
      that exception or blocked. */
  lemma FeedUnfold(s: State, xs: seq<int>, i: nat, a: PutArgs, close: bool, o: Outcome, next: State)
    requires i < |xs|
    requires Step(o, next) == PutStep(s, xs[i], a.block, a.timeout, a.last, a.deadlinePassed)
    ensures o == Done ==> Feed(s, xs[i..], a, close) == Feed(next, xs[i + 1..], a, close)
    ensures o == MustWait ==> Feed(s, xs[i..], a, close) == FeedResult(Blocked, next)
    ensures o != Done && o != MustWait ==> Feed(s, xs[i..], a, close) == FeedResult(Raised(o), next)
  {
    assert xs[i..][0] == xs[i] && xs[i..][1..] == xs[i + 1..];
  }

  /** At the end of the input, `enqueue` closes the queue if asked to. */
  lemma FeedEnd(s: State, xs: seq<int>, a: PutArgs, close: bool)
    ensures Feed(s, xs[|xs|..], a, close) == FeedResult(Finished, if close then CloseStep(s) else s)
  {
    assert xs[|xs|..] == [];
  }

  /** A get argument that is not refused as a negative timeout. */
  predicate AcceptedGet(g: GetArgs) {
    !(g.block && Negative(g.timeout))
  }

  /** `getargs` under which a `get` on an empty open queue does not wait: a
      non-blocking call, or a timed one whose deadline has passed. */
  predicate Expires(g: GetArgs) {
    !g.block || (g.timeout.Seconds? && g.deadlinePassed)
  }

  /** An accepted `get` on a closed queue, and an accepted one that expires on
      an open queue: Ok with the policy's element while items remain,
      otherwise Closed or Empty as the flag says. */
  lemma GetNoWait(s: State, g: GetArgs)
    requires AcceptedGet(g) && (s.closed || Expires(g))
    ensures |s.items| == 0 ==>
      GetStep(s, g.block, g.timeout, g.deadlinePassed) == Step(if s.closed then Closed else Empty, s)
    ensures |s.items| > 0 ==>
      GetStep(s, g.block, g.timeout, g.deadlinePassed)
        == Step(Ok(Take(s.policy, s.items).head), s.(items := Take(s.policy, s.items).rest))
  {
  }

  /** A value yielded before a drain that yields `d` and then `extra`. */
  lemma YieldFirst(h: int, d: seq<int>, extra: seq<int>, r: DrainResult)
    requires r.yielded == d + extra
    ensures After([h], r).yielded == ([h] + d) + extra
  {
    assert [h] + (d + extra) == ([h] + d) + extra;
  }

  /** Draining a closed queue yields its whole buffer in policy order and
      ends normally on the Closed that follows, leaving it empty. */
  lemma {:induction false} DrainClosed(s: State, g: GetArgs, onEmpty: OnEmpty)
    requires s.closed && AcceptedGet(g)
    ensures var r := Drain(s, g, onEmpty);
      && r.yielded == Drained(s.policy, s.items)
      && r.end == Finished
      && r.final == s.(items := [])
    decreases |s.items|
  {
    var r := GetStep(s, g.block, g.timeout, g.deadlinePassed);
    GetNoWait(s, g);
    DrainUnfold(s, g, onEmpty, r.outcome, r.next);
    if |s.items| > 0 {
      DrainedCons(s.policy, s.items);
      DrainClosed(r.next, g, onEmpty);
    }
  }

  /** Draining an open queue with gets that do not wait on an empty buffer
      (non-blocking, or timed out) yields its buffer in policy order, then
      meets Empty: `'raise'` re-raises it, `'stop'` ends, and any other
      `on_empty` is yielded once before the end. */
  lemma {:induction false} DrainOpen(s: State, g: GetArgs, onEmpty: OnEmpty)
    requires !s.closed && AcceptedGet(g) && Expires(g)
    ensures var r := Drain(s, g, onEmpty);
      && r.yielded == Drained(s.policy, s.items) + (if onEmpty.Yield? then [onEmpty.sentinel] else [])
      && r.end == (if onEmpty == Raise then Raised(Empty) else Finished)
      && r.final == s.(items := [])
    decreases |s.items|
  {
    var r := GetStep(s, g.block, g.timeout, g.deadlinePassed);
    GetNoWait(s, g);
    DrainUnfold(s, g, onEmpty, r.outcome, r.next);
    if |s.items| > 0 {
      DrainOpen(r.next, g, onEmpty);
      DrainedCons(s.policy, s.items);
      YieldFirst(r.outcome.item, Drained(s.policy, r.next.items),
                 if onEmpty.Yield? then [onEmpty.sentinel] else [], Drain(r.next, g, onEmpty));
    } else {
      EmptyOnEmpty(s, onEmpty);
    }
  }

  /** What `dequeue` does with the Empty from an empty open queue. */
  lemma EmptyOnEmpty(s: State, onEmpty: OnEmpty)
    requires |s.items| == 0
    ensures var r := Ending(Empty, onEmpty, s);
      && r.yielded == Drained(s.policy, s.items) + (if onEmpty.Yield? then [onEmpty.sentinel] else [])
      && r.end == (if onEmpty == Raise then Raised(Empty) else Finished)
      && r.final == s.(items := [])
  {
  }

  /** A blocking get with a negative timeout makes `dequeue` raise ValueError
      before it yields anything, even from a non-empty queue. */
  lemma DrainNegativeTimeout(s: State, g: GetArgs, onEmpty: OnEmpty)
    requires !AcceptedGet(g)
    ensures Drain(s, g, onEmpty) == DrainResult([], Raised(ValueError), s)
  {
  }

  /** A `put` argument under which `put` neither refuses the timeout nor
      closes the queue. */
  predicate PlainPut(a: PutArgs, s: State) {
    !a.last && !(s.maxsize > 0 && a.block && Negative(a.timeout))
  }

  /** Appending the first value, then the others, appends them all. */
  lemma AppendFirst(items: seq<int>, xs: seq<int>)
    requires xs != []
    ensures items + [xs[0]] + xs[1..] == items + xs
  {
    assert xs == [xs[0]] + xs[1..];
  }

  /** A plain `put` into an open queue with room stores its value. */
  lemma PutWithRoom(s: State, x: int, a: PutArgs)
    requires !s.closed && PlainPut(a, s)
    requires s.maxsize <= 0 || |s.items| < s.maxsize
    ensures PutStep(s, x, a.block, a.timeout, a.last, a.deadlinePassed)
      == Step(Done, s.(items := s.items + [x], unfinishedTasks := s.unfinishedTasks + 1))
  {
    PutOnOpen(s, x, a.block, a.timeout, a.last, a.deadlinePassed);
  }

  /** Feeding an open queue with room for every value stores them all, in
      order, counts one task each, and closes the queue exactly when asked. */
  lemma {:induction false} FeedAll(s: State, xs: seq<int>, a: PutArgs, close: bool)
    requires !s.closed && PlainPut(a, s)
    requires s.maxsize <= 0 || |s.items| + |xs| <= s.maxsize
    ensures var r := Feed(s, xs, a, close);
      && r.end == Finished
      && r.final == s.(items := s.items + xs, unfinishedTasks := s.unfinishedTasks + |xs|, closed := close)
    decreases |xs|
  {
    if xs != [] {
      var n := s.(items := s.items + [xs[0]], unfinishedTasks := s.unfinishedTasks + 1);
      PutWithRoom(s, xs[0], a);
      FeedUnfold(s, xs, 0, a, close, Done, n);
      assert xs[0..] == xs;
      FeedAll(n, xs[1..], a, close);
      AppendFirst(s.items, xs);
    }
  }

  /** With `last=True` among the `putargs`, the first value closes the queue
      and the second `put` raises Closed out of `enqueue`, which then never
      reaches its own `close`. */
  lemma FeedWithLast(s: State, xs: seq<int>, a: PutArgs, close: bool)
    requires !s.closed && a.last && !(s.maxsize > 0 && a.block && Negative(a.timeout))
    requires s.maxsize <= 0 || |s.items| < s.maxsize
    requires |xs| >= 2
    ensures var r := Feed(s, xs, a, close);
      && r.end == Raised(Closed)
      && r.final == s.(items := s.items + [xs[0]], unfinishedTasks := s.unfinishedTasks + 1, closed := true)
  {
    PutOnOpen(s, xs[0], a.block, a.timeout, a.last, a.deadlinePassed);
    var n := s.(items := s.items + [xs[0]], unfinishedTasks := s.unfinishedTasks + 1, closed := true);
    PutOnClosed(n, xs[1], a.block, a.timeout, a.last, a.deadlinePassed);
    assert xs[1..][0] == xs[1];
  }

  /** `enqueue` into a fresh queue with room for every value, closing at the
      end, then `dequeue` with any accepted `getargs`: the values come back
      in policy order and the drain ends normally. */
  lemma EnqueueThenDequeue(p: Policy, maxsize: int, xs: seq<int>, a: PutArgs, g: GetArgs, onEmpty: OnEmpty)
    requires PlainPut(a, Initial(p, maxsize)) && AcceptedGet(g)
    requires maxsize <= 0 || |xs| <= maxsize
    ensures var f := Feed(Initial(p, maxsize), xs, a, true);
      var d := Drain(f.final, g, onEmpty);
      && f.end == Finished
      && d.yielded == Drained(p, xs)
      && d.end == Finished
      && d.final.items == [] && d.final.closed && d.final.unfinishedTasks == |xs|
  {
    var s := Initial(p, maxsize);
    FeedAll(s, xs, a, true);
    assert s.items + xs == xs;
    DrainClosed(Feed(s, xs, a, true).final, g, onEmpty);
  }

  /** The round trip per policy: insertion order, reversed, and ascending. */
  lemma EnqueueThenDequeueOrder(p: Policy, maxsize: int, xs: seq<int>, a: PutArgs, g: GetArgs, onEmpty: OnEmpty)
    requires PlainPut(a, Initial(p, maxsize)) && AcceptedGet(g)
    requires maxsize <= 0 || |xs| <= maxsize
    ensures var ys := Drain(Feed(Initial(p, maxsize), xs, a, true).final, g, onEmpty).yielded;
      && (p == Fifo ==> ys == xs)
      && (p == Lifo ==> ys == Reversed(xs))
      && (p == MinFirst ==> Sorted(ys) && multiset(ys) == multiset(xs))
  {
    EnqueueThenDequeue(p, maxsize, xs, a, g, onEmpty);
    match p {
      case Fifo => DrainedFifo(xs);
      case Lifo => DrainedLifo(xs);
      case MinFirst => DrainedMinFirst(xs);
    }
  }

  /** A blocking untimed `put` into an open unbounded queue stores its item. */
  lemma PutIntoUnbounded(s: State, x: int, last: bool)
    requires !s.closed && s.maxsize <= 0
    ensures PutStep(s, x, true, NoTimeout, last, false)
      == Step(Done, s.(items := s.items + [x], unfinishedTasks := s.unfinishedTasks + 1, closed := last))
  {
    PutOnOpen(s, x, true, NoTimeout, last, false);
  }

  /** `put(x)`, `put(y)`, `put(z, last=True)` on a fresh unbounded queue, then
      non-blocking gets: the three values in policy order, then Closed. */
  lemma ThreePutsThenDrain(p: Policy, x: int, y: int, z: int)
    ensures var s0 := Initial(p, 0);
      var s1 := PutStep(s0, x, true, NoTimeout, false, false).next;
      var s2 := PutStep(s1, y, true, NoTimeout, false, false).next;
      var s3 := PutStep(s2, z, true, NoTimeout, true, false).next;
      var d := Drain(s3, GetArgs(false, NoTimeout, false), Raise);
      && d.end == Finished
      && GetStep(d.final, false, NoTimeout, false).outcome == Closed
      && d.yielded == Drained(p, [x, y, z])
  {
    var s0 := Initial(p, 0);
    PutIntoUnbounded(s0, x, false);
    var s1 := s0.(items := [x], unfinishedTasks := 1);
    PutIntoUnbounded(s1, y, false);
    var s2 := s0.(items := [x, y], unfinishedTasks := 2);
    assert s1.items + [y] == [x, y];
    PutIntoUnbounded(s2, z, true);
    var s3 := s0.(items := [x, y, z], unfinishedTasks := 3, closed := true);
    assert s2.items + [z] == [x, y, z];
    DrainClosed(s3, GetArgs(false, NoTimeout, false), Raise);
    GetNoWait(s3.(items := []), GetArgs(false, NoTimeout, false));
  }

  /** `put(2)`, `put(1)`, `put(3, last=True)` on a fresh unbounded queue, then
      non-blocking gets: (2, 1, 3), (3, 1, 2) or (1, 2, 3) by policy, then Closed. */
  lemma TakeUntilBeforeLast(p: Policy)
    ensures var s0 := Initial(p, 0);
      var s1 := PutStep(s0, 2, true, NoTimeout, false, false).next;
      var s2 := PutStep(s1, 1, true, NoTimeout, false, false).next;
      var s3 := PutStep(s2, 3, true, NoTimeout, true, false).next;
      var d := Drain(s3, GetArgs(false, NoTimeout, false), Raise);
      && d.end == Finished
      && GetStep(d.final, false, NoTimeout, false).outcome == Closed
      && d.yielded == (match p case Fifo => [2, 1, 3] case Lifo => [3, 1, 2] case MinFirst => [1, 2, 3])
  {
    ThreePutsThenDrain(p, 2, 1, 3);
    DrainedThree(p, 2, 1, 3);
  }

  /** `dequeue(q, getargs, on_empty)` run to its end. */
  method Dequeue(q: CloseableQueue, g: GetArgs, onEmpty: OnEmpty) returns (yielded: seq<int>, end: End)
    requires q.Valid()
    modifies q
    ensures q.Valid()
    ensures DrainResult(yielded, end, q.Model()) == Drain(old(q.Model()), g, onEmpty)
  {
    yielded := [];
    ghost var start := q.Model();
    while true
      invariant q.Valid()
      invariant Drain(start, g, onEmpty) == After(yielded, Drain(q.Model(), g, onEmpty))
      decreases |q.items|
    {
      ghost var before := q.Model();
      var o := q.Get(g.block, g.timeout, g.deadlinePassed);
      ghost var now := q.Model();
      DrainUnfold(before, g, onEmpty, o, now);
      if o.Ok? {
        AfterTwice(yielded, [o.item], Drain(now, g, onEmpty));
        yielded := yielded + [o.item];
      } else {
        var extra;
        extra, end := Except(o, onEmpty, now);
        yielded := yielded + extra;
        return;
      }
    }
  }

  /** The `except` clauses of `dequeue`, as the statements `Dequeue` runs:
      what a `get` that returned no item adds to the values yielded, and how
      the generator ends. Its contract ties it to `Ending`, the same case
      analysis as an expression, which `Drain` uses. */
  method Except(o: Outcome, onEmpty: OnEmpty, ghost s: State) returns (extra: seq<int>, end: End)
    ensures DrainResult(extra, end, s) == Ending(o, onEmpty, s)
  {
    extra := [];
    if o == Closed {
      end := Finished;
    } else if o == Empty {
      if onEmpty == Raise {
        end := Raised(Empty);
      } else if onEmpty == Stop {
        end := Finished;
      } else {
        extra := [onEmpty.sentinel];
        end := Finished;
      }
    } else if o == MustWait {
      end := Blocked;
    } else {
      end := Raised(o);
    }
  }

  /** `enqueue(it, q, putargs, close=close)`. */
  method Enqueue(xs: seq<int>, q: CloseableQueue, a: PutArgs, close: bool) returns (end: End)
    requires q.Valid()
    modifies q
    ensures q.Valid()
    ensures FeedResult(end, q.Model()) == Feed(old(q.Model()), xs, a, close)
  {
    ghost var start := q.Model();
    assert xs[0..] == xs;
    for i := 0 to |xs|
      invariant q.Valid()
      invariant Feed(start, xs, a, close) == Feed(q.Model(), xs[i..], a, close)
    {
      ghost var before := q.Model();
      var o := q.Put(xs[i], a.block, a.timeout, a.last, a.deadlinePassed);
      FeedUnfold(before, xs, i, a, close, o, q.Model());
      if o == MustWait {
        return Blocked;
      } else if o != Done {
        return Raised(o);
      }
    }
    FeedEnd(q.Model(), xs, a, close);
    if close {
      q.Close();
    }
    return Finished;
  }
}
