/**
 * The array operations the components use, over Dafny sequences and arrays:
 * `reduce` into a sum, `filter`, and `sort` with a descending comparator.
 */
module Seqs {

  /** `s.reduce((acc, x) => acc + f(x), 0)`. */
  function Sum<T>(s: seq<T>, f: T -> int): int {
    if s == [] then 0 else f(s[0]) + Sum(s[1..], f)
  }

  lemma {:induction false} SumAppend<T>(a: seq<T>, b: seq<T>, f: T -> int)
    ensures Sum(a + b, f) == Sum(a, f) + Sum(b, f)
  {
    if a == [] {
      assert a + b == b;
    } else {
      assert (a + b)[1..] == a[1..] + b;
      SumAppend(a[1..], b, f);
    }
  }

  /** `s` with the element at index `k` taken out. */
  function RemoveAt<T>(s: seq<T>, k: int): (r: seq<T>)
    requires 0 <= k < |s|
    ensures |r| == |s| - 1
    ensures forall m :: 0 <= m < |r| ==> r[m] == s[if m < k then m else m + 1]
  {
    s[..k] + s[k + 1..]
  }

  lemma IndexOf<T>(s: seq<T>, x: T) returns (k: int)
    requires x in multiset(s)
    ensures 0 <= k < |s| && s[k] == x
  {
    k :| 0 <= k < |s| && s[k] == x;
  }

  lemma RemoveFromMultiset<T>(s: seq<T>, k: int)
    requires 0 <= k < |s|
    ensures multiset(RemoveAt(s, k)) == multiset(s) - multiset{s[k]}
  {
    assert s == s[..k] + ([s[k]] + s[k + 1..]);
    assert multiset(s) == multiset(s[..k]) + multiset{s[k]} + multiset(s[k + 1..]);
  }

  /** Taking the same element out of two permutations of each other leaves two permutations. */
  lemma RemoveFromBoth<T>(a: seq<T>, i: int, b: seq<T>, k: int)
    requires multiset(a) == multiset(b)
    requires 0 <= i < |a| && 0 <= k < |b| && a[i] == b[k]
    ensures multiset(RemoveAt(a, i)) == multiset(RemoveAt(b, k))
  {
    RemoveFromMultiset(a, i);
    RemoveFromMultiset(b, k);
  }

  lemma {:induction false} SumRemoveAt<T>(s: seq<T>, k: int, f: T -> int)
    requires 0 <= k < |s|
    ensures Sum(s, f) == f(s[k]) + Sum(RemoveAt(s, k), f)
  {
    assert s == s[..k] + ([s[k]] + s[k + 1..]);
    SumAppend(s[..k], [s[k]] + s[k + 1..], f);
    SumAppend(s[..k], s[k + 1..], f);
    assert ([s[k]] + s[k + 1..])[1..] == s[k + 1..];
  }

  /** A sum does not depend on the order of its terms. */
  lemma {:induction false} SumPermutation<T>(a: seq<T>, b: seq<T>, f: T -> int)
    requires multiset(a) == multiset(b)
    ensures Sum(a, f) == Sum(b, f)
    decreases |a|
  {
    if a == [] {
      assert |b| == |multiset(b)| == 0;
    } else {
      var k := IndexOf(b, a[0]);
      RemoveFromBoth(a, 0, b, k);
      assert RemoveAt(a, 0) == a[1..];
      SumPermutation(a[1..], RemoveAt(b, k), f);
      SumRemoveAt(b, k, f);
    }
  }

  /** A sum of terms that are never negative is never negative. */
  lemma {:induction false} SumNonNegative<T>(s: seq<T>, f: T -> int)
    requires forall i :: 0 <= i < |s| ==> f(s[i]) >= 0
    ensures Sum(s, f) >= 0
  {
    if s != [] {
      assert f(s[0]) >= 0;
      SumNonNegative(s[1..], f);
    }
  }

  /** Replacing one term changes the sum by the difference of the two. */
  lemma SumUpdate<T>(s: seq<T>, k: int, x: T, f: T -> int)
    requires 0 <= k < |s|
    ensures Sum(s[k := x], f) == Sum(s, f) - f(s[k]) + f(x)
  {
    SumRemoveAt(s, k, f);
    SumRemoveAt(s[k := x], k, f);
    assert RemoveAt(s[k := x], k) == RemoveAt(s, k);
  }

  /** The number of elements that satisfy `p`: `s.filter(p).length`. */
  function Count<T>(s: seq<T>, p: T -> bool): (n: nat)
    ensures n <= |s|
  {
    if s == [] then 0 else (if p(s[0]) then 1 else 0) + Count(s[1..], p)
  }

  /** `filter(p).length` is the whole length exactly when every element passes, and 0 exactly when none does. */
  lemma {:induction false} CountExtremes<T>(s: seq<T>, p: T -> bool)
    ensures Count(s, p) == |s| <==> forall i :: 0 <= i < |s| ==> p(s[i])
    ensures Count(s, p) == 0 <==> forall i :: 0 <= i < |s| ==> !p(s[i])
  {
    if s != [] {
      CountExtremes(s[1..], p);
      assert forall i :: 1 <= i < |s| ==> s[i] == s[1..][i - 1];
    }
  }

  lemma {:induction false} CountAppend<T>(a: seq<T>, b: seq<T>, p: T -> bool)
    ensures Count(a + b, p) == Count(a, p) + Count(b, p)
  {
    if a == [] {
      assert a + b == b;
    } else {
      assert (a + b)[1..] == a[1..] + b;
      CountAppend(a[1..], b, p);
    }
  }

  /** `r` is `s` with some elements left out and the rest kept in order. */
  predicate IsSubsequence<T(==)>(r: seq<T>, s: seq<T>)
    decreases |r| + |s|
  {
    r == [] || (s != [] && ((r[0] == s[0] && IsSubsequence(r[1..], s[1..])) || IsSubsequence(r, s[1..])))
  }

  /** `s.filter(p)`. */
  function Filter<T(==)>(s: seq<T>, p: T -> bool): (r: seq<T>)
    ensures |r| == Count(s, p)
    ensures forall i :: 0 <= i < |r| ==> p(r[i])
    ensures IsSubsequence(r, s)
  {
    if s == [] then []
    else if p(s[0]) then
      var tail := Filter(s[1..], p);
      assert ([s[0]] + tail)[1..] == tail;
      [s[0]] + tail
    else
      Filter(s[1..], p)
  }

  /** `x` survives `filter(p)` exactly when it is in `s` and satisfies `p`. */
  lemma {:induction false} FilterMembership<T>(s: seq<T>, p: T -> bool, x: T)
    ensures x in Filter(s, p) <==> x in s && p(x)
  {
    if s != [] {
      FilterMembership(s[1..], p, x);
      assert s == [s[0]] + s[1..];
    }
  }

  /** A filter that every element passes keeps the whole sequence. */
  lemma {:induction false} FilterAll<T>(s: seq<T>, p: T -> bool)
    requires forall i :: 0 <= i < |s| ==> p(s[i])
    ensures Filter(s, p) == s
  {
    if s != [] {
      assert p(s[0]);
      FilterAll(s[1..], p);
    }
  }

  lemma {:induction false} FilterAppend<T>(a: seq<T>, b: seq<T>, p: T -> bool)
    ensures Filter(a + b, p) == Filter(a, p) + Filter(b, p)
  {
    if a == [] {
      assert a + b == b;
    } else {
      assert (a + b)[1..] == a[1..] + b;
      FilterAppend(a[1..], b, p);
    }
  }

  /** No two elements carry the same tag. */
  predicate DistinctBy<T, K(==)>(s: seq<T>, tag: T -> K) {
    forall i, j :: 0 <= i < |s| && 0 <= j < |s| && i != j ==> tag(s[i]) != tag(s[j])
  }

  predicate SortedDescendingBy<T>(s: seq<T>, key: T -> int) {
    forall i, j :: 0 <= i < j < |s| ==> key(s[i]) >= key(s[j])
  }

  lemma RemoveKeepsDistinct<T, K>(s: seq<T>, k: int, tag: T -> K)
    requires 0 <= k < |s| && DistinctBy(s, tag)
    ensures DistinctBy(RemoveAt(s, k), tag)
  {
    var t := RemoveAt(s, k);
    forall p, q | 0 <= p < |t| && 0 <= q < |t| && p != q
      ensures tag(t[p]) != tag(t[q])
    {
      var p' := if p < k then p else p + 1;
      var q' := if q < k then q else q + 1;
      assert t[p] == s[p'] && t[q] == s[q'];
    }
  }

  lemma ConsKeepsDistinct<T, K>(x: T, s: seq<T>, tag: T -> K)
    requires DistinctBy(s, tag)
    requires forall j :: 0 <= j < |s| ==> tag(x) != tag(s[j])
    ensures DistinctBy([x] + s, tag)
  {
    var t := [x] + s;
    forall p, q | 0 <= p < |t| && 0 <= q < |t| && p != q
      ensures tag(t[p]) != tag(t[q])
    {
      if p != 0 && q != 0 {
        assert t[p] == s[p - 1] && t[q] == s[q - 1];
      }
    }
  }

  /** Every element of a permutation of `a` is an element of `a`, at some index. */
  lemma ElementOfRemoveAt<T>(a: seq<T>, k: int, y: T) returns (m: int)
    requires 0 <= k < |a| && y in multiset(RemoveAt(a, k))
    ensures 0 <= m < |a| && m != k && a[m] == y
  {
    var j := IndexOf(RemoveAt(a, k), y);
    m := if j < k then j else j + 1;
  }

  /** Reordering never introduces a duplicate: distinctness depends only on the multiset of elements. */
  lemma {:induction false} PermutationKeepsDistinct<T, K>(a: seq<T>, b: seq<T>, tag: T -> K)
    requires multiset(a) == multiset(b) && DistinctBy(a, tag)
    ensures DistinctBy(b, tag)
    decreases |a|
  {
    if b != [] {
      var x := b[0];
      var k := IndexOf(a, x);
      var rest := RemoveAt(a, k);
      RemoveFromBoth(a, k, b, 0);
      assert RemoveAt(b, 0) == b[1..];
      RemoveKeepsDistinct(a, k, tag);
      PermutationKeepsDistinct(rest, b[1..], tag);
      forall j | 0 <= j < |b[1..]|
        ensures tag(x) != tag(b[1..][j])
      {
        var m := ElementOfRemoveAt(a, k, b[1..][j]);
      }
      ConsKeepsDistinct(x, b[1..], tag);
      assert b == [x] + b[1..];
    }
  }

  method Swap<T>(a: array<T>, i: int, j: int)
    requires 0 <= i < a.Length && 0 <= j < a.Length
    modifies a
    requires i != j
    ensures a[i] == old(a[j]) && a[j] == old(a[i])
    ensures forall k :: 0 <= k < a.Length && k != i && k != j ==> a[k] == old(a[k])
    ensures multiset(a[..]) == old(multiset(a[..]))
  {
    a[i], a[j] := a[j], a[i];
    assert a[..] == old(a[..])[i := old(a[j])][j := old(a[i])];
  }

  /**
   * `a.sort((x, y) => key(y) - key(x))`, in place: the array ends sorted by
   * non-increasing `key` and holds the same elements.
   */
  method SortDescending<T>(a: array<T>, key: T -> int)
    modifies a
    ensures SortedDescendingBy(a[..], key)
    ensures multiset(a[..]) == old(multiset(a[..]))
  {
    var i := 0;
    while i < a.Length
      invariant 0 <= i <= a.Length
      invariant forall p, q :: 0 <= p < q < i ==> key(a[p]) >= key(a[q])
      invariant multiset(a[..]) == old(multiset(a[..]))
    {
      SinkDown(a, i, key);
      i := i + 1;
    }
  }

  /** One insertion step: moves `a[i]` left past every smaller key, so that `a[..i + 1]` becomes sorted. */
  method SinkDown<T>(a: array<T>, i: int, key: T -> int)
    requires 0 <= i < a.Length
    requires forall p, q :: 0 <= p < q < i ==> key(a[p]) >= key(a[q])
    modifies a
    ensures forall p, q :: 0 <= p < q <= i ==> key(a[p]) >= key(a[q])
    ensures multiset(a[..]) == old(multiset(a[..]))
  {
    var j := i;
    while j > 0 && key(a[j - 1]) < key(a[j])
      invariant 0 <= j <= i
      invariant forall p, q :: 0 <= p < q <= i && p != j && q != j ==> key(a[p]) >= key(a[q])
      invariant forall q :: j < q <= i ==> key(a[j]) > key(a[q])
      invariant multiset(a[..]) == old(multiset(a[..]))
    {
      Swap(a, j - 1, j);
      j := j - 1;
    }
  }
}
