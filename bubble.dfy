/**
 * `bubble_sort` (`bubble/src/main.rs`): two nested passes over a mutable
 * vector, swapping adjacent cells that are out of order, in place.
 *
 * The elements are compared through `key`, a total preorder; two elements
 * with equal keys may still be different values, which makes stability a
 * property worth stating. The loops are described by the functions `Pass`
 * (the inner loop) and `Passes` (the outer loop); the lemmas prove what the
 * result of all passes is, and the method performs them on an array.
 */
module Bubble {

  /** Non-decreasing order of keys. */
  ghost predicate SortedBy<T>(s: seq<T>, key: T -> int)
  {
    forall i, j :: 0 <= i < j < |s| ==> key(s[i]) <= key(s[j])
  }

  /** The last `k` cells are in order and no cell before them has a larger key. */
  ghost predicate TopSorted<T>(s: seq<T>, key: T -> int, k: int)
  {
    forall i, j :: 0 <= i < j < |s| && |s| - k <= j ==> key(s[i]) <= key(s[j])
  }

  /**
   * `origin[p]` is the position in `orig` that `s[p]` came from: a one-to-one
   * correspondence under which elements with equal keys keep their original
   * relative order.
   */
  ghost predicate StableOrigin<T>(orig: seq<T>, s: seq<T>, key: T -> int, origin: seq<int>)
  {
    && |orig| == |s| == |origin|
    && (forall p :: 0 <= p < |s| ==> 0 <= origin[p] < |orig| && s[p] == orig[origin[p]])
    && (forall p, q :: 0 <= p < q < |s| ==> origin[p] != origin[q])
    && (forall p, q :: 0 <= p < q < |s| && key(s[p]) == key(s[q]) ==> origin[p] < origin[q])
  }

  /** `s` is a stable rearrangement of `orig`. */
  ghost predicate Stable<T>(orig: seq<T>, s: seq<T>, key: T -> int)
  {
    exists origin :: StableOrigin(orig, s, key, origin)
  }

  /** `s` with the cells at `x` and `x + 1` exchanged (`Vec::swap`). */
  function Swapped<U>(s: seq<U>, x: int): (r: seq<U>)
    requires 0 <= x < |s| - 1
    ensures |r| == |s| && r[x] == s[x + 1] && r[x + 1] == s[x]
    ensures forall p :: 0 <= p < |s| && p != x && p != x + 1 ==> r[p] == s[p]
    ensures multiset(r) == multiset(s)
  {
    s[x := s[x + 1]][x + 1 := s[x]]
  }

  /** One comparison of the inner loop: swap `x` and `x + 1` when their keys are strictly out of order. */
  function Step<T>(s: seq<T>, key: T -> int, x: int): (r: seq<T>)
    requires 0 <= x < |s| - 1
    ensures |r| == |s|
    ensures key(r[x]) <= key(r[x + 1])
    ensures key(s[x]) <= key(s[x + 1]) ==> r == s
    ensures key(s[x]) > key(s[x + 1]) ==> r == Swapped(s, x)
  {
    if key(s[x]) > key(s[x + 1]) then Swapped(s, x) else s
  }

  /** The inner loop after its first `x` comparisons. */
  function Pass<T>(s: seq<T>, key: T -> int, x: int): (r: seq<T>)
    requires 0 <= x < |s|
    ensures |r| == |s|
    decreases x
  {
    if x == 0 then s else Step(Pass(s, key, x - 1), key, x - 1)
  }

  /** The outer loop after its first `i` passes. */
  function Passes<T>(s: seq<T>, key: T -> int, i: nat): (r: seq<T>)
    requires i <= |s|
    ensures |r| == |s|
    decreases i
  {
    if i == 0 then s else Pass(Passes(s, key, i - 1), key, |s| - 1)
  }

  /** What `bubble_sort` leaves in the vector: one pass per element. */
  function BubbleSorted<T>(s: seq<T>, key: T -> int): (r: seq<T>)
    ensures |r| == |s|
  {
    Passes(s, key, |s|)
  }

  /**
   * Midway through pass `i` at position `x`: the last `i` cells are done,
   * `s[x]` has the largest key among `s[..x + 1]`, and once `x` has reached
   * the cell the pass is to fill, that cell has the largest key before it.
   */
  ghost predicate PassInvariant<T>(s: seq<T>, key: T -> int, i: int, x: int)
  {
    && 0 <= x < |s|
    && TopSorted(s, key, i)
    && (forall k :: 0 <= k < x ==> key(s[k]) <= key(s[x]))
    && (0 <= |s| - i - 1 <= x ==> forall k :: 0 <= k < |s| - i - 1 ==> key(s[k]) <= key(s[|s| - i - 1]))
  }

  /** One comparison carries the invariant from position `x` to `x + 1`. */
  lemma StepKeepsPassInvariant<T>(s: seq<T>, key: T -> int, i: int, x: int)
    requires 0 <= i < |s| && x < |s| - 1
    requires PassInvariant(s, key, i, x)
    ensures PassInvariant(Step(s, key, x), key, i, x + 1)
  {
  }

  /** During pass `i` the invariant holds at every position. */
  lemma {:induction false} PassKeepsInvariant<T>(s: seq<T>, key: T -> int, i: int, x: int)
    requires 0 <= i < |s| && 0 <= x < |s|
    requires TopSorted(s, key, i)
    ensures PassInvariant(Pass(s, key, x), key, i, x)
    decreases x
  {
    if x > 0 {
      PassKeepsInvariant(s, key, i, x - 1);
      StepKeepsPassInvariant(Pass(s, key, x - 1), key, i, x - 1);
    }
  }

  /** After outer pass `i` (counting from zero) the last `i + 1` cells hold the largest keys, in order. */
  lemma {:induction false} PassesTopSorted<T>(s: seq<T>, key: T -> int, i: nat)
    requires i <= |s|
    ensures TopSorted(Passes(s, key, i), key, i)
    decreases i
  {
    if i > 0 {
      var p := Passes(s, key, i - 1);
      PassesTopSorted(s, key, i - 1);
      PassKeepsInvariant(p, key, i - 1, |s| - 1);
    }
  }

  lemma {:induction false} PassesPermutation<T>(s: seq<T>, key: T -> int, i: nat)
    requires i <= |s|
    ensures multiset(Passes(s, key, i)) == multiset(s)
    decreases i
  {
    if i > 0 {
      var p := Passes(s, key, i - 1);
      PassesPermutation(s, key, i - 1);
      PassPermutation(p, key, |s| - 1);
    }
  }

  /** A comparison keeps the multiset of elements, whether or not it swaps. */
  lemma StepPermutation<T>(s: seq<T>, key: T -> int, x: int)
    requires 0 <= x < |s| - 1
    ensures multiset(Step(s, key, x)) == multiset(s)
  {
  }

  lemma {:induction false} PassPermutation<T>(s: seq<T>, key: T -> int, x: int)
    requires 0 <= x < |s|
    ensures multiset(Pass(s, key, x)) == multiset(s)
    decreases x
  {
    if x > 0 {
      PassPermutation(s, key, x - 1);
      StepPermutation(Pass(s, key, x - 1), key, x - 1);
    }
  }

  /** Exchanging two neighbours whose keys are strictly out of order keeps the correspondence stable. */
  lemma SwapKeepsStable<T>(orig: seq<T>, s: seq<T>, key: T -> int, origin: seq<int>, x: int)
    requires StableOrigin(orig, s, key, origin)
    requires 0 <= x < |s| - 1 && key(s[x]) > key(s[x + 1])
    ensures StableOrigin(orig, Swapped(s, x), key, Swapped(origin, x))
  {
  }

  /** Equal keys are never exchanged, so a stable rearrangement stays stable through a pass. */
  lemma {:induction false} PassStable<T>(orig: seq<T>, s: seq<T>, key: T -> int, x: int)
    requires Stable(orig, s, key)
    requires 0 <= x < |s|
    ensures Stable(orig, Pass(s, key, x), key)
    decreases x
  {
    if x > 0 {
      PassStable(orig, s, key, x - 1);
      var p := Pass(s, key, x - 1);
      var origin :| StableOrigin(orig, p, key, origin);
      if key(p[x - 1]) > key(p[x]) {
        SwapKeepsStable(orig, p, key, origin, x - 1);
        assert StableOrigin(orig, Pass(s, key, x), key, Swapped(origin, x - 1));
      } else {
        assert StableOrigin(orig, Pass(s, key, x), key, origin);
      }
    }
  }

  lemma {:induction false} PassesStable<T>(s: seq<T>, key: T -> int, i: nat)
    requires i <= |s|
    ensures Stable(s, Passes(s, key, i), key)
    decreases i
  {
    if i == 0 {
      assert StableOrigin(s, s, key, seq(|s|, p => p));
    } else {
      PassesStable(s, key, i - 1);
      PassStable(s, Passes(s, key, i - 1), key, |s| - 1);
    }
  }

  /** The result is sorted, a permutation of the input and a stable rearrangement of it. */
  lemma BubbleSortedCorrect<T>(s: seq<T>, key: T -> int)
    ensures |BubbleSorted(s, key)| == |s|
    ensures SortedBy(BubbleSorted(s, key), key)
    ensures multiset(BubbleSorted(s, key)) == multiset(s)
    ensures Stable(s, BubbleSorted(s, key), key)
  {
    PassesTopSorted(s, key, |s|);
    PassesPermutation(s, key, |s|);
    PassesStable(s, key, |s|);
  }

  /** `Vec::swap` of two neighbouring cells. */
  method Swap<T>(list: array<T>, x: int)
    requires 0 <= x < list.Length - 1
    modifies list
    ensures list[..] == Swapped(old(list[..]), x)
  {
    list[x], list[x + 1] := list[x + 1], list[x];
  }

  /** Sorts `list` in place and returns the same array. */
  method BubbleSort<T>(list: array<T>, key: T -> int) returns (r: array<T>)
    modifies list
    ensures r == list
    ensures list[..] == BubbleSorted(old(list[..]), key)
    ensures SortedBy(list[..], key)
    ensures multiset(list[..]) == multiset(old(list[..]))
    ensures Stable(old(list[..]), list[..], key)
  {
    var n := list.Length;
    ghost var orig := list[..];
    for i := 0 to n
      invariant list[..] == Passes(orig, key, i)
    {
      // the outer loop runs only when n > 0, so `n - 1` does not underflow
      var last: nat := n - 1;
      ghost var start := list[..];
      for x := 0 to last
        invariant list[..] == Pass(start, key, x)
      {
        ghost var before := list[..];
        if key(list[x]) > key(list[x + 1]) {
          Swap(list, x);
        }
        assert list[..] == Step(before, key, x);
      }
    }
    assert list[..] == BubbleSorted(orig, key);
    BubbleSortedCorrect(orig, key);
    r := list;
  }
}
