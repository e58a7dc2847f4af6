# CloseableQueue in Dafny

A model of the closeable bounded queue of the Python package
`CloseableQueue`, and proofs about it. A closeable queue is a bounded,
thread-safe queue with a permanent `close` operation. After a close, `put`
never stores anything: it refuses with `Closed`, or with `ValueError` for a
blocking call with a negative timeout on a bounded queue (see below). `get`
keeps handing out what is stored and refuses with `Closed` only once the
queue is also empty. `put(x, last=True)`
stores `x` and closes the queue in one step.

The source guards every operation with the queue's mutex, so each call of
`put`, `get`, `close` and `closed` is modelled as one atomic step over a
state:

- `items`: the buffer;
- `maxsize`: the bound, where `<= 0` means unbounded;
- `closed`: the flag;
- `unfinishedTasks`: the count of stored items not yet marked done.

A `while ...: wait()` loop whose predicate still holds cannot finish in one
step, so it ends the step with the outcome `MustWait`. A timed wait takes a
`deadlinePassed` flag in place of the clock: the flag chooses between
`Full`/`Empty` and `MustWait`.

Files:

- `storage.dfy` (`Storage`): the three storage disciplines behind
  `CloseableQueue`, `CloseableLifoQueue` and `CloseablePriorityQueue`
  (first-in-first-out, last-in-first-out, smallest-first). It also proves the
  order in which each hands out its buffer: insertion order, reversed, and
  ascending.
- `outcomes.dfy` (`Outcomes`): timeouts, call outcomes, and how a blocking
  call ends when its wait predicate holds.
- `plain.dfy` (`Plain`): the bounded queue of `__init__.py`, without close.
  It holds the step functions `PutStep` and `GetStep`, their properties, an
  accounting lemma over whole runs, and the class `PlainQueue`, whose
  methods follow the source's branches and are proved equal to the step
  functions.
- `closeable.dfy` (`Closeable`): the closeable queue of `CloseableQueue.py`.
  It holds the step functions, the close latch, the refinement lemmas, and
  the class `CloseableQueue` with `Close`, `IsClosed`, `Put` and `Get`.
  Refinement here means "a closeable queue that is never closed behaves as
  the plain queue".
- `iteration.dfy` (`Iteration`): `dequeue` and `enqueue`. Each is a
  specification function (`Drain`, `Feed`) plus a method with a loop of
  `Get` or `Put` calls, proved equal to that function. The file also holds
  the round trip "enqueue, then dequeue".

In these details the model follows the code:

- Any `maxsize <= 0` is unbounded, not only `0`.
- A negative timeout is refused by `put` only on a bounded queue under a
  blocking call. The check comes before the closed check, so a closed
  bounded queue answers `ValueError` rather than `Closed` to such a call.
- `get` refuses every blocking call with a negative timeout, even when items
  are present.
- Task completion (`task_done`, `join`) is inherited from the standard
  library and is not part of this model.

## Model

| member | source | states |
|---|---|---|
| Storage.Insert | CloseableQueue.py:104 | `_put` adds exactly the new item: the multiset grows by `x`, the old buffer is kept as a prefix |
| Storage.MinIndex | CloseableQueue.py:154-155 | the index of the leftmost smallest element: it is in range, no element is smaller, every element before it is larger |
| Storage.Pick | CloseableQueue.py:151-155 | the position each class removes from: the first (`Queue`), the last (`LifoQueue`), one holding a smallest element (`PriorityQueue`) |
| Storage.Take | CloseableQueue.py:143 | `_get` removes one element and returns it (multiset split). FIFO takes the first, LIFO the last, smallest-first an element no larger than any other |
| Storage.Drained | CloseableQueue.py:143 | the elements that successive removals hand out are a permutation of the buffer |
| Storage.Reversed | test/__init__.py:278 | reversal: same length, element `i` is element `n-1-i` of the input |
| Storage.DrainedFifo | test/__init__.py:127 | a FIFO queue hands its items out in insertion order |
| Storage.DrainedLifo | test/__init__.py:276-278 | a LIFO queue hands its items out in reverse insertion order |
| Storage.DrainedMinFirst | test/__init__.py:280-282 | a priority queue hands its items out in ascending order |
| Storage.SortedPermutationUnique | test/__init__.py:282 | two sorted permutations of the same items are equal, so the ascending order is exactly `sorted` |
| Storage.SortedDrainIs | test/__init__.py:282 | a priority queue hands its items out as exactly the sorted arrangement of what was put |
| Storage.DrainedThree | test/__init__.py:276-282 | for a buffer [x, y, z] with y < x < z, the three classes hand out [x, y, z], [z, y, x] and [y, x, z] |
| Outcomes.Stuck | CloseableQueue.py:86-101 | a call whose wait predicate holds fails (Full/Empty) exactly when it does not block, or when it has a timeout whose deadline passed; otherwise it must wait |
| Plain.Initial | __init__.py:8 | a fresh queue is empty, has no unfinished tasks, and keeps its policy and bound |
| Plain.PutOnFull | __init__.py:67-82 | `put` on a full bounded queue: Full when not blocking, whatever the timeout, MustWait with no timeout, Full when the deadline has passed and MustWait otherwise; the state is unchanged |
| Plain.PutUnbounded | __init__.py:67-85 | on an unbounded queue `put` always appends and counts a task, the same for every `block`, `timeout` (even negative) and clock |
| Plain.PutEffect | __init__.py:65-85 | `put` succeeds iff the timeout is acceptable and there is room; ValueError iff bounded, blocking and negative; success appends one item and one task; any failure changes nothing |
| Plain.PutKeepsBound | __init__.py:83-85 | no `put` takes a bounded queue beyond `maxsize` |
| Plain.GetFailures | __init__.py:100-116 | ValueError iff blocking with a negative timeout; Empty iff on an empty queue not blocking or past the deadline; every failure leaves the state unchanged |
| Plain.GetSucceeds | __init__.py:117-119 | an accepted `get` on a non-empty queue returns the policy's element and removes exactly it; nothing else changes |
| Plain.GetKeepsBound | __init__.py:89-121 | `get` keeps the size bound |
| Plain.ApplyAccounting | __init__.py:83-84 | one call keeps the bound; a successful `put` adds one item and one task, a successful `get` removes one item, a failure changes neither |
| Plain.RunAccounting | __init__.py:54-121 | along any run: the bound holds, tasks = initial + successful puts, and size + successful gets = initial size + successful puts |
| Plain.PlainQueue.constructor | __init__.py:8 | the object starts in the initial state |
| Plain.PlainQueue.Put | __init__.py:54-87 | the branch-by-branch `put` produces exactly the outcome and state of `PutStep`, and keeps the bound |
| Plain.PlainQueue.Get | __init__.py:89-121 | the branch-by-branch `get` produces exactly the outcome and state of `GetStep`, and keeps the bound |
| Closeable.Initial | CloseableQueue.py:32-35 | a new closeable queue is open and is the plain queue's initial state plus the flag |
| Closeable.CloseIdempotent | CloseableQueue.py:37-58 | `close` sets the flag and touches nothing else; a second `close` changes nothing |
| Closeable.PutOnClosed | CloseableQueue.py:84-103 | `put` on a closed queue (even a full one, whatever `block`, `timeout`, `last`) changes nothing and answers Closed, or ValueError iff bounded, blocking and negative |
| Closeable.PutOnOpen | CloseableQueue.py:84-111 | on an open queue: ValueError, Full, MustWait and Done each hold exactly under their conditions; failures change nothing; Done appends, counts a task and sets the flag to `last` |
| Closeable.PutLast | CloseableQueue.py:102-109 | `put(x, last=True)` that succeeds stores `x` and closes in the same step; one that fails leaves the flag as it was |
| Closeable.PutKeepsBound | CloseableQueue.py:86-105 | no `put` takes a bounded queue beyond `maxsize` |
| Closeable.GetOnClosed | CloseableQueue.py:141-145 | on a closed queue an accepted `get` answers Closed iff the buffer is empty, else returns and removes the policy's element |
| Closeable.GetFailures | CloseableQueue.py:124-142 | ValueError, Empty, MustWait and Closed each hold exactly under their conditions (ValueError even with items present); each leaves the state unchanged |
| Closeable.GetKeepsBound | CloseableQueue.py:124-145 | `get` keeps the size bound |
| Closeable.PutRefines | CloseableQueue.py:71-111 | on an open queue, `put` without `last` gives the plain `put`'s outcome and next state, and stays open |
| Closeable.GetRefines | CloseableQueue.py:115-145 | on an open queue, `get` gives the plain `get`'s outcome and next state, and stays open |
| Closeable.CloseReleasesWaiters | CloseableQueue.py:45-56 | a `get` or `put` that must wait answers Closed after a `close`, whatever the clock |
| Closeable.LastPutReleasesGetter | CloseableQueue.py:106-109 | a `get` waiting on an empty queue receives the item of `put(x, last=True)` made with any accepted `block` and `timeout`, and the next `get` answers Closed |
| Closeable.RunAppend | CloseableQueue.py:37-147 | running two call sequences in turn is running their concatenation |
| Closeable.ApplyKeepsInvariants | CloseableQueue.py:37-147 | one call of any kind keeps the bound, never clears the flag, and on a closed queue only removes elements |
| Closeable.GetOnlyRemoves | CloseableQueue.py:141-145 | a `get` never adds to the buffer and never changes the flag |
| Closeable.RunKeepsInvariants | CloseableQueue.py:37-147 | along any run the bound holds; once closed, the flag stays set and the buffer only loses elements |
| Closeable.RunKeepsClosed | CloseableQueue.py:53-54 | from a closed state, whatever it holds, no run of calls reopens the queue |
| Closeable.ClosedIsMonotonic | CloseableQueue.py:60-69 | once `closed()` would answer true after some prefix of a run, it answers true after every longer prefix |
| Closeable.LiftAll | CloseableQueue.py:71-83 | a plain call sequence seen as closeable calls, element by element, without `last` |
| Closeable.NeverClosedRefines | CloseableQueue.py:71-123 | a closeable queue never closed gives the plain queue's outcomes and final state along any run |
| Closeable.CloseableQueue.constructor | CloseableQueue.py:32-35 | the object starts open and empty |
| Closeable.CloseableQueue.Close | CloseableQueue.py:37-58 | the new state is `CloseStep` of the old one |
| Closeable.CloseableQueue.IsClosed | CloseableQueue.py:60-69 | returns the flag |
| Closeable.CloseableQueue.Put | CloseableQueue.py:71-113 | the branch-by-branch `put` produces exactly `PutStep`'s outcome and state, keeps the bound and never reopens |
| Closeable.CloseableQueue.Get | CloseableQueue.py:115-147 | the branch-by-branch `get` produces exactly `GetStep`'s outcome and state, keeps the bound and the flag |
| Iteration.GetShrinks | CloseableQueue.py:143 | a successful `get` shortens the buffer by one (the loop's termination measure) |
| Iteration.GetNoWait | CloseableQueue.py:126-145 | an accepted `get` on a closed queue, or one that is non-blocking or past its deadline on an open queue, never waits: Ok with the policy's element, else Empty (open) or Closed (closed) |
| Iteration.DrainClosed | CloseableQueue.py:179-183 | `dequeue` on a closed queue yields the buffer in policy order, ends normally on Closed, and leaves it empty |
| Iteration.DrainOpen | CloseableQueue.py:179-190 | `dequeue` on an open queue with non-blocking gets, or timed gets whose deadline has passed, yields the buffer in policy order, then on Empty re-raises (`'raise'`), ends (`'stop'`), or yields the sentinel once and ends |
| Iteration.DrainNegativeTimeout | CloseableQueue.py:179-181 | a negative blocking timeout makes `dequeue` raise ValueError before yielding anything |
| Iteration.FeedAll | CloseableQueue.py:206-209 | `enqueue` into an open queue with room stores every value in order, counts each, and closes iff `close` |
| Iteration.PutWithRoom | CloseableQueue.py:102-111 | a `put` without `last` and with an accepted timeout stores its value in an open queue with room |
| Iteration.PutIntoUnbounded | CloseableQueue.py:86-109 | a blocking untimed `put` into an open unbounded queue stores its value, and closes the queue iff `last` |
| Iteration.FeedWithLast | CloseableQueue.py:206-207 | with `last=True` in `putargs`, the second value raises Closed out of `enqueue`, after only the first is stored |
| Iteration.EnqueueThenDequeue | test/__init__.py:295-313 | `enqueue` then `dequeue` returns the values in the policy's drain order, ends normally, and leaves the queue closed and empty |
| Iteration.EnqueueThenDequeueOrder | test/__init__.py:335-341 | that round trip gives insertion order (FIFO), reversed (LIFO), and a sorted permutation (priority) |
| Iteration.ThreePutsThenDrain | test/__init__.py:135-144 | `put(x)`, `put(y)`, `put(z, last=True)` on a fresh queue, then non-blocking gets: the values in drain order, a normal end, then Closed |
| Iteration.TakeUntilBeforeLast | test/__init__.py:135-144 | `put(2)`, `put(1)`, `put(3, last=True)`, then non-blocking gets give (2,1,3), (3,1,2) or (1,2,3) by policy, then Closed |
| Iteration.Dequeue | CloseableQueue.py:157-190 | the loop of `get`s yields exactly what `Drain` says and ends as it says |
| Iteration.Except | CloseableQueue.py:182-190 | the `except` clauses of `dequeue`: Closed ends it, Empty is re-raised, ends it or yields the sentinel, and any other exception propagates |
| Iteration.Enqueue | CloseableQueue.py:192-211 | the loop of `put`s ends as `Feed` says, in the state it says |

## Left out

- Mutex and condition variables (`acquire`, `release`, `wait`, `notify`, `notify_all`): each locked section is one atomic step. A wait that cannot end in this step is `MustWait`. Which thread a notify wakes is not modelled; `CloseReleasesWaiters` and `LastPutReleasesGetter` state what the woken call sees.
- `_time()` and the deadline arithmetic: replaced by the `deadlinePassed` flag. A zero timeout is not forced to count as passed. `dequeue` and `enqueue` pass the same flag to every call they make.
- Other threads: `Dequeue` and `Enqueue` run with no other thread, so a blocking call that must wait ends their loop as `Blocked` instead of waiting.
- `task_done` and `join`: inherited from the standard library, which is not shown. Only the `unfinished_tasks` increment in `put` is modelled, and `enqueue`'s `join` argument is not.
- `EnqueueThread`: it only starts a thread.
- The standard library's `_put`, `_get` and `_qsize`: replaced by a sequence kept in insertion order. The priority discipline takes the leftmost minimum; the heap layout is not modelled.
- Items are integers, because the priority discipline needs an order; Python compares arbitrary objects. The `on_empty` sentinel is an integer too.
- Exceptions raised inside `_put` or `_get` (the failing-queue regression tests) are not modelled.
- The `close` and `closing` stubs of `__init__.py`: their bodies are `pass`.
- `dequeue` is a lazy generator; the model runs it to its end and returns everything it yields.
