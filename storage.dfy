/** The storage disciplines the three closeable queue classes are built on:
    first-in-first-out (`Queue.Queue`), last-in-first-out (`LifoQueue`) and
    smallest-first (`PriorityQueue`). The buffer is a sequence in insertion
    order; the discipline decides which element a removal takes. */
module Storage {

  datatype Policy = Fifo | Lifo | MinFirst

  /** What a removal hands back: the element taken and the buffer left behind. */
  datatype Taken = Taken(head: int, rest: seq<int>)

  /** `_put`: every discipline adds the new element to the buffer. The
      priority heap's layout is not modelled: the buffer stays in insertion
      order and `Take` finds the smallest element when it removes one, so
      insertion does not depend on the discipline. */
  function Insert(items: seq<int>, x: int): (r: seq<int>)
    ensures |r| == |items| + 1
    ensures multiset(r) == multiset(items) + multiset{x}
    ensures r[..|items|] == items && r[|items|] == x
  {
    items + [x]
  }

  /** Position of the leftmost smallest element. */
  function MinIndex(items: seq<int>): (i: nat)
    requires |items| > 0
    ensures i < |items|
    ensures forall j :: 0 <= j < |items| ==> items[i] <= items[j]
    ensures forall j :: 0 <= j < i ==> items[i] < items[j]
  {
    if |items| == 1 then 0
    else
      var k := MinIndex(items[1..]);
      if items[0] <= items[1 + k] then 0 else 1 + k
  }

  /** Position of the element the discipline removes next. */
  function Pick(p: Policy, items: seq<int>): (i: nat)
    requires |items| > 0
    ensures i < |items|
    ensures p == Fifo ==> i == 0
    ensures p == Lifo ==> i == |items| - 1
    ensures p == MinFirst ==> forall j :: 0 <= j < |items| ==> items[i] <= items[j]
  {
    match p
    case Fifo => 0
    case Lifo => |items| - 1
    case MinFirst => MinIndex(items)
  }

  /** Removing the element at `i` removes exactly it from the multiset. */
  lemma RemoveAt(items: seq<int>, i: nat)
    requires i < |items|
    ensures multiset(items) == multiset(items[..i] + items[i + 1..]) + multiset{items[i]}
  {
    assert items == items[..i] + [items[i]] + items[i + 1..];
  }

  /** Every element of a sequence is at least its smallest one. */
  lemma BoundsAll(items: seq<int>, i: nat)
    requires i < |items|
    requires forall j :: 0 <= j < |items| ==> items[i] <= items[j]
    ensures forall y :: y in items ==> items[i] <= y
  {
  }

  /** `_get`: remove the element the discipline selects. */
  function Take(p: Policy, items: seq<int>): (t: Taken)
    requires |items| > 0
    ensures |t.rest| == |items| - 1
    ensures multiset(items) == multiset(t.rest) + multiset{t.head}
    ensures p == Fifo ==> t.head == items[0] && t.rest == items[1..]
    ensures p == Lifo ==> t.head == items[|items| - 1] && t.rest == items[..|items| - 1]
    ensures p == MinFirst ==> forall y :: y in items ==> t.head <= y
  {
    var i := Pick(p, items);
    RemoveAt(items, i);
    assert p == Fifo ==> items[..i] + items[i + 1..] == items[1..];
    assert p == Lifo ==> items[..i] + items[i + 1..] == items[..|items| - 1];
    if p == MinFirst then BoundsAll(items, i); Taken(items[i], items[..i] + items[i + 1..])
    else Taken(items[i], items[..i] + items[i + 1..])
  }

  /** The order in which successive removals hand out the whole buffer. */
  function Drained(p: Policy, items: seq<int>): (r: seq<int>)
    ensures multiset(r) == multiset(items)
    decreases |items|
  {
    if |items| == 0 then []
    else
      var t := Take(p, items);
      [t.head] + Drained(p, t.rest)
  }

  /** One removal followed by the rest of the drain. */
  lemma DrainedCons(p: Policy, items: seq<int>)
    requires |items| > 0
    ensures Drained(p, items) == [Take(p, items).head] + Drained(p, Take(p, items).rest)
  {
  }

  function Reversed(s: seq<int>): (r: seq<int>)
    ensures |r| == |s|
    ensures forall i :: 0 <= i < |s| ==> r[i] == s[|s| - 1 - i]
  {
    if s == [] then [] else [s[|s| - 1]] + Reversed(s[..|s| - 1])
  }

  predicate Sorted(s: seq<int>) {
    forall i, j :: 0 <= i < j < |s| ==> s[i] <= s[j]
  }

  /** A first-in-first-out buffer hands its elements out in insertion order. */
  lemma {:induction false} DrainedFifo(items: seq<int>)
    ensures Drained(Fifo, items) == items
    decreases |items|
  {
    if |items| > 0 {
      DrainedCons(Fifo, items);
      DrainedFifo(items[1..]);
      assert items == [items[0]] + items[1..];
    }
  }

  /** A last-in-first-out buffer hands its elements out in reverse insertion order. */
  lemma {:induction false} DrainedLifo(items: seq<int>)
    ensures Drained(Lifo, items) == Reversed(items)
    decreases |items|
  {
    if |items| > 0 {
      DrainedLifo(items[..|items| - 1]);
    }
  }

  /** Sortedness of a sequence whose first element bounds the rest. */
  lemma SortedCons(h: int, d: seq<int>)
    requires Sorted(d)
    requires forall y :: y in d ==> h <= y
    ensures Sorted([h] + d)
  {
    var r := [h] + d;
    forall i, j | 0 <= i < j < |r| ensures r[i] <= r[j] {
      assert r[j] == d[j - 1];
      if i > 0 {
        assert r[i] == d[i - 1];
      } else {
        assert d[j - 1] in d;
      }
    }
  }

  /** The first element of a sorted sequence is its smallest. */
  lemma SortedHeadIsMin(s: seq<int>, y: int)
    requires Sorted(s) && y in s
    ensures s[0] <= y
  {
    var k :| 0 <= k < |s| && s[k] == y;
    if k > 0 {
      assert s[0] <= s[k];
    }
  }

  /** A smallest-first buffer hands its elements out in ascending order
      (and, by the contract of Drained, as a permutation of its contents). */
  lemma {:induction false} DrainedMinFirst(items: seq<int>)
    ensures Sorted(Drained(MinFirst, items))
    decreases |items|
  {
    if |items| > 0 {
      var t := Take(MinFirst, items);
      var d := Drained(MinFirst, t.rest);
      DrainedMinFirst(t.rest);
      forall y | y in d ensures t.head <= y {
        assert y in multiset(d);
        assert y in multiset(items);
      }
      SortedCons(t.head, d);
    }
  }

  /** Removing the first element of a sequence removes it from its multiset. */
  lemma TailMultiset(s: seq<int>)
    requires |s| > 0
    ensures multiset(s[1..]) == multiset(s) - multiset{s[0]}
  {
    assert s == [s[0]] + s[1..];
  }

  /** The tail of a sorted sequence is sorted. */
  lemma SortedTail(s: seq<int>)
    requires Sorted(s) && |s| > 0
    ensures Sorted(s[1..])
  {
    forall i, j | 0 <= i < j < |s| - 1 ensures s[1..][i] <= s[1..][j] {
      assert s[1..][i] == s[i + 1] && s[1..][j] == s[j + 1];
    }
  }

  /** Sequences with the same multiset have the same length. */
  lemma SameLength(a: seq<int>, b: seq<int>)
    requires multiset(a) == multiset(b)
    ensures |a| == |b|
  {
    assert |multiset(a)| == |a| && |multiset(b)| == |b|;
  }

  /** Two non-empty sorted arrangements of the same elements start alike. */
  lemma SameHead(a: seq<int>, b: seq<int>)
    requires Sorted(a) && Sorted(b) && |a| > 0 && |b| > 0
    requires multiset(a) == multiset(b)
    ensures a[0] == b[0]
  {
    assert a[0] in multiset(b) && b[0] in multiset(a);
    SortedHeadIsMin(a, b[0]);
    SortedHeadIsMin(b, a[0]);
  }

  /** Two sorted arrangements of the same elements are the same sequence, so
      the ascending order above is exactly Python's `sorted`. */
  lemma {:induction false} SortedPermutationUnique(a: seq<int>, b: seq<int>)
    requires Sorted(a) && Sorted(b)
    requires multiset(a) == multiset(b)
    ensures a == b
    decreases |a|
  {
    SameLength(a, b);
    if |a| > 0 {
      SameHead(a, b);
      TailMultiset(a);
      TailMultiset(b);
      SortedTail(a);
      SortedTail(b);
      SortedPermutationUnique(a[1..], b[1..]);
      assert a == [a[0]] + a[1..] && b == [b[0]] + b[1..];
    }
  }

  /** A smallest-first buffer drains to the one sorted arrangement of its
      elements: Python's `sorted` of what was put. */
  lemma SortedDrainIs(items: seq<int>, sorted: seq<int>)
    requires Sorted(sorted) && multiset(items) == multiset(sorted)
    ensures Drained(MinFirst, items) == sorted
  {
    DrainedMinFirst(items);
    SortedPermutationUnique(Drained(MinFirst, items), sorted);
  }

  /** The three disciplines on a buffer [x, y, z] with y < x < z: insertion
      order, reversed, and ascending. */
  lemma DrainedThree(p: Policy, x: int, y: int, z: int)
    requires y < x < z
    ensures Drained(p, [x, y, z])
      == match p case Fifo => [x, y, z] case Lifo => [z, y, x] case MinFirst => [y, x, z]
  {
    match p {
      case Fifo => DrainedFifo([x, y, z]);
      case Lifo => DrainedLifoThree(x, y, z);
      case MinFirst => DrainedMinFirstThree(x, y, z);
    }
  }

  lemma DrainedLifoThree(x: int, y: int, z: int)
    ensures Drained(Lifo, [x, y, z]) == [z, y, x]
  {
    DrainedLifo([x, y, z]);
    ReversedThree(x, y, z);
  }

  lemma DrainedMinFirstThree(x: int, y: int, z: int)
    requires y < x < z
    ensures Drained(MinFirst, [x, y, z]) == [y, x, z]
  {
    SortedThree(y, x, z);
    SameElements(x, y, z);
    SortedDrainIs([x, y, z], [y, x, z]);
  }

  lemma SortedThree(a: int, b: int, c: int)
    requires a <= b <= c
    ensures Sorted([a, b, c])
  {
  }

  lemma SameElements(x: int, y: int, z: int)
    ensures multiset([x, y, z]) == multiset([y, x, z])
  {
  }

  lemma ReversedThree(x: int, y: int, z: int)
    ensures Reversed([x, y, z]) == [z, y, x]
  {
    var r := Reversed([x, y, z]);
    assert r[0] == z && r[1] == y && r[2] == x;
  }
}
