/**
 * Go's `sort.Float64s`, which the order statistics apply to a copy of their
 * input. It is library code, so only its result matters here: the sorted
 * rearrangement of the input, given as insertion sort. Any sort gives the
 * same sequence, because a sorted rearrangement of a multiset is unique.
 */
module Sorting {

  /** Ascending order. */
  predicate Sorted(s: seq<real>)
  {
    forall i, j :: 0 <= i < j < |s| ==> s[i] <= s[j]
  }

  /** `x` inserted into the sorted sequence `s` before the first element not below it. */
  function Insert(x: real, s: seq<real>): (r: seq<real>)
    requires Sorted(s)
    ensures Sorted(r)
    ensures multiset(r) == multiset(s) + multiset{x}
    ensures |r| == |s| + 1
    ensures r[0] == if |s| == 0 || x <= s[0] then x else s[0]
  {
    if |s| == 0 then [x]
    else if x <= s[0] then [x] + s
    else
      assert s == [s[0]] + s[1..];
      [s[0]] + Insert(x, s[1..])
  }

  /** The ascending rearrangement of `s`. */
  function Sort(s: seq<real>): (r: seq<real>)
    ensures Sorted(r)
    ensures multiset(r) == multiset(s)
    ensures |r| == |s|
  {
    if |s| == 0 then []
    else
      assert s == [s[0]] + s[1..];
      Insert(s[0], Sort(s[1..]))
  }

  /** Two sorted sequences with the same elements are the same sequence. */
  lemma {:induction false} SortedUnique(a: seq<real>, b: seq<real>)
    requires Sorted(a) && Sorted(b) && multiset(a) == multiset(b)
    ensures a == b
  {
    if |a| == 0 {
      assert |multiset(b)| == 0;
    } else {
      assert |b| == |multiset(b)| == |multiset(a)| == |a|;
      SortedHeads(a, b);
      SortedTails(a, b);
      SortedUnique(a[1..], b[1..]);
      assert a == [a[0]] + a[1..] && b == [b[0]] + b[1..];
    }
  }

  /** Sorted rearrangements of one multiset start with the same, least, element. */
  lemma {:induction false} SortedHeads(a: seq<real>, b: seq<real>)
    requires Sorted(a) && Sorted(b) && multiset(a) == multiset(b) && |a| > 0 && |b| > 0
    ensures a[0] == b[0]
  {
    assert a[0] in multiset(b) && b[0] in multiset(a);
    var i :| 0 <= i < |b| && b[i] == a[0];
    var j :| 0 <= j < |a| && a[j] == b[0];
    assert j == 0 || a[0] <= a[j];
    assert i == 0 || b[0] <= b[i];
  }

  /** Removing the common head keeps the multisets equal. */
  lemma {:induction false} SortedTails(a: seq<real>, b: seq<real>)
    requires multiset(a) == multiset(b) && |a| > 0 && |b| > 0 && a[0] == b[0]
    ensures multiset(a[1..]) == multiset(b[1..])
  {
    assert a == [a[0]] + a[1..];
    assert b == [b[0]] + b[1..];
    var h, ta, tb := multiset{a[0]}, multiset(a[1..]), multiset(b[1..]);
    assert multiset(a) == h + ta && multiset(b) == h + tb;
    forall v ensures ta[v] == tb[v] {
      assert (h + ta)[v] == h[v] + ta[v] && (h + tb)[v] == h[v] + tb[v];
    }
  }

  /** Sorting a sorted sequence changes nothing. */
  lemma {:induction false} SortSorted(s: seq<real>)
    requires Sorted(s)
    ensures Sort(s) == s
  {
    SortedUnique(Sort(s), s);
  }

  /** Sorting sees only the elements, not their order. */
  lemma {:induction false} SortPermutation(s: seq<real>, t: seq<real>)
    requires multiset(s) == multiset(t)
    ensures Sort(s) == Sort(t)
  {
    SortedUnique(Sort(s), Sort(t));
  }

  /** The first element of a sorted sequence is its least, the last its greatest. */
  lemma {:induction false} SortedEnds(s: seq<real>)
    requires Sorted(s) && |s| > 0
    ensures forall k :: 0 <= k < |s| ==> s[0] <= s[k] <= s[|s| - 1]
  {
  }

  /** A slice of a sorted sequence is sorted. */
  lemma {:induction false} SortedSlice(s: seq<real>, lo: nat, hi: nat)
    requires Sorted(s) && lo <= hi <= |s|
    ensures Sorted(s[lo..hi])
  {
  }
}
