/**
  Sums, extrema and a stable insertion sort over sequences: the meaning of
  Python's `sum`, `max`, `min`, `sorted` and `list.sort(key=...)` as the
  conveyor model uses them.
 */
module Sequences {

  /** `sum(s)`, accumulated from the left. */
  function Sum(s: seq<real>): real {
    if |s| == 0 then 0.0 else Sum(s[..|s| - 1]) + s[|s| - 1]
  }

  /** `max(a, b)`: the first argument unless the second is strictly greater. */
  function Max(a: real, b: real): (r: real)
    ensures r >= a && r >= b && (r == a || r == b)
  {
    if b > a then b else a
  }

  function Min(a: real, b: real): (r: real)
    ensures r <= a && r <= b && (r == a || r == b)
  {
    if b < a then b else a
  }

  /** `max(s)`, defined only for a non-empty s (Python raises ValueError otherwise). */
  function MaxOf(s: seq<real>): (m: real)
    requires |s| > 0
    ensures m in s
    ensures forall k :: 0 <= k < |s| ==> s[k] <= m
  {
    if |s| == 1 then s[0] else Max(MaxOf(s[..|s| - 1]), s[|s| - 1])
  }

  /** `min(s)`, defined only for a non-empty s. */
  function MinOf(s: seq<real>): (m: real)
    requires |s| > 0
    ensures m in s
    ensures forall k :: 0 <= k < |s| ==> m <= s[k]
  {
    if |s| == 1 then s[0] else Min(MinOf(s[..|s| - 1]), s[|s| - 1])
  }

  /** s without the first occurrence of x, or s itself when x does not occur. */
  function Drop(s: seq<real>, x: real): (r: seq<real>)
    ensures x in s ==> |r| == |s| - 1 && multiset(s) == multiset(r) + multiset{x}
    ensures x !in s ==> r == s
    decreases |s|
  {
    if |s| == 0 then []
    else
      assert s == [s[0]] + s[1..];
      if s[0] == x then s[1..] else [s[0]] + Drop(s[1..], x)
  }

  /** `[v for _ in range(n)]`: n copies of v, none when n <= 0. */
  function Repeat(v: real, n: int): (r: seq<real>)
    ensures |r| == if n <= 0 then 0 else n
    ensures forall k :: 0 <= k < |r| ==> r[k] == v
    decreases n
  {
    if n <= 0 then [] else Repeat(v, n - 1) + [v]
  }

  /** Adding one more element at the right end. */
  lemma {:induction false} SumSnoc(s: seq<real>, j: nat)
    requires j < |s|
    ensures Sum(s[..j + 1]) == Sum(s[..j]) + s[j]
  {
    assert s[..j + 1][..j] == s[..j];
  }

  lemma SumAppend(p: seq<real>, v: real)
    ensures Sum(p + [v]) == Sum(p) + v
  {
    assert (p + [v])[..|p|] == p;
  }

  /** The sum of a concatenation. */
  lemma {:induction false} SumConcat(p: seq<real>, q: seq<real>)
    ensures Sum(p + q) == Sum(p) + Sum(q)
    decreases |q|
  {
    if |q| == 0 {
      assert p + q == p;
    } else {
      var l := |q| - 1;
      SumConcat(p, q[..l]);
      assert p + q == (p + q[..l]) + [q[l]];
      SumAppend(p + q[..l], q[l]);
      assert q == q[..l] + [q[l]];
      SumAppend(q[..l], q[l]);
    }
  }

  /** Rearranging a sequence does not change its sum. */
  lemma {:induction false} SumPermutation(a: seq<real>, b: seq<real>)
    requires multiset(a) == multiset(b)
    ensures Sum(a) == Sum(b)
    decreases |a|
  {
    if |a| > 0 {
      var l := |a| - 1;
      var x := a[l];
      assert x in multiset(b);
      var k :| 0 <= k < |b| && b[k] == x;
      var rest := b[..k] + b[k + 1..];
      assert b == b[..k] + [x] + b[k + 1..];
      assert a == a[..l] + [x];
      assert multiset(a) == multiset(a[..l]) + multiset{x};
      assert multiset(b) == multiset(rest) + multiset{x};
      assert multiset(a[..l]) == multiset(a) - multiset{x};
      assert multiset(rest) == multiset(b) - multiset{x};
      SumPermutation(a[..l], rest);
      SumConcat(b[..k] + [x], b[k + 1..]);
      SumAppend(b[..k], x);
      SumConcat(b[..k], b[k + 1..]);
      SumAppend(a[..l], x);
    }
  }

  /** A sum of non-negative reals is non-negative. */
  lemma {:induction false} SumNonNegative(s: seq<real>)
    requires forall k :: 0 <= k < |s| ==> s[k] >= 0.0
    ensures Sum(s) >= 0.0
  {
    if |s| > 0 {
      SumNonNegative(s[..|s| - 1]);
    }
  }

  /** The maximum of a longer prefix. */
  lemma MaxOfSnoc(s: seq<real>, j: nat)
    requires 0 < j < |s|
    ensures MaxOf(s[..j + 1]) == Max(MaxOf(s[..j]), s[j])
  {
    assert s[..j + 1][..j] == s[..j];
  }

  /** The element of s that is at least every element is s's maximum. */
  lemma MaxOfUnique(s: seq<real>, m: real)
    requires m in s && forall k :: 0 <= k < |s| ==> s[k] <= m
    ensures MaxOf(s) == m
  {
    var k :| 0 <= k < |s| && s[k] == MaxOf(s);
  }

  /** The element of s that is at most every element is s's minimum. */
  lemma MinOfUnique(s: seq<real>, m: real)
    requires m in s && forall k :: 0 <= k < |s| ==> m <= s[k]
    ensures MinOf(s) == m
  {
    var k :| 0 <= k < |s| && s[k] == MinOf(s);
  }

  // ---------------------------------------------------------------------------
  // Stable insertion sort by a real-valued key.

  predicate SortedBy<T>(s: seq<T>, key: T -> real) {
    forall p, q :: 0 <= p < q < |s| ==> key(s[p]) <= key(s[q])
  }

  predicate Distinct<T(==)>(s: seq<T>) {
    forall p, q :: 0 <= p < q < |s| ==> s[p] != s[q]
  }

  /**
    Inserts x into s from the right: x goes after every element whose key is
    at most x's, so equal keys keep their order of arrival.
   */
  function InsertBy<T>(s: seq<T>, x: T, key: T -> real): (r: seq<T>)
    ensures |r| == |s| + 1
    decreases |s|
  {
    if |s| == 0 || key(s[|s| - 1]) <= key(x) then s + [x]
    else InsertBy(s[..|s| - 1], x, key) + [s[|s| - 1]]
  }

  /** Stable sort by key, inserting the elements left to right. */
  function SortBy<T>(s: seq<T>, key: T -> real): (r: seq<T>)
    ensures |r| == |s|
    decreases |s|
  {
    if |s| == 0 then [] else InsertBy(SortBy(s[..|s| - 1], key), s[|s| - 1], key)
  }

  /**
    Where InsertBy puts x: after the prefix s[..j] when every element from j
    on has a larger key and s[j - 1] (if any) does not.
   */
  lemma {:induction false} InsertByAt<T>(s: seq<T>, x: T, key: T -> real, j: nat)
    requires j <= |s|
    requires forall k :: j <= k < |s| ==> key(s[k]) > key(x)
    requires j == 0 || key(s[j - 1]) <= key(x)
    ensures InsertBy(s, x, key) == s[..j] + [x] + s[j..]
    decreases |s|
  {
    if |s| == j {
      assert s[..j] == s && s[j..] == [];
    } else {
      var l := |s| - 1;
      assert key(s[l]) > key(x);
      InsertByAt(s[..l], x, key, j);
      assert s[..l][..j] == s[..j];
      assert s[..l][j..] + [s[l]] == s[j..];
    }
  }

  lemma {:induction false} InsertByPermutes<T>(s: seq<T>, x: T, key: T -> real)
    ensures multiset(InsertBy(s, x, key)) == multiset(s) + multiset{x}
    decreases |s|
  {
    if |s| > 0 && key(s[|s| - 1]) > key(x) {
      var l := |s| - 1;
      InsertByPermutes(s[..l], x, key);
      assert s == s[..l] + [s[l]];
    }
  }

  lemma {:induction false} InsertBySorted<T>(s: seq<T>, x: T, key: T -> real)
    requires SortedBy(s, key)
    ensures SortedBy(InsertBy(s, x, key), key)
    decreases |s|
  {
    if |s| > 0 && key(s[|s| - 1]) > key(x) {
      var l := |s| - 1;
      InsertBySorted(s[..l], x, key);
      var r := InsertBy(s[..l], x, key);
      InsertByPermutes(s[..l], x, key);
      forall k | 0 <= k < |r| ensures key(r[k]) <= key(s[l]) {
        assert r[k] in multiset(r);
        assert r[k] in multiset(s[..l]) + multiset{x};
        if r[k] != x {
          assert r[k] in s[..l];
        }
      }
      var t := InsertBy(s, x, key);
      assert t == r + [s[l]];
      forall p, q | 0 <= p < q < |t| ensures key(t[p]) <= key(t[q]) {
        assert t[p] == r[p];
        if q < |r| {
          assert t[q] == r[q];
        } else {
          assert t[q] == s[l];
        }
      }
    }
  }

  /** SortBy orders by key and only rearranges its input. */
  lemma {:induction false} SortBySortsAndPermutes<T>(s: seq<T>, key: T -> real)
    ensures SortedBy(SortBy(s, key), key)
    ensures multiset(SortBy(s, key)) == multiset(s)
    ensures |SortBy(s, key)| == |s|
    decreases |s|
  {
    if |s| > 0 {
      var l := |s| - 1;
      SortBySortsAndPermutes(s[..l], key);
      InsertBySorted(SortBy(s[..l], key), s[l], key);
      InsertByPermutes(SortBy(s[..l], key), s[l], key);
      assert s == s[..l] + [s[l]];
      assert |multiset(SortBy(s, key))| == |multiset(s)|;
    }
  }

  /** Sorting what is already sorted changes nothing. */
  lemma {:induction false} SortBySortedIsIdentity<T>(s: seq<T>, key: T -> real)
    requires SortedBy(s, key)
    ensures SortBy(s, key) == s
    decreases |s|
  {
    if |s| > 0 {
      var l := |s| - 1;
      assert SortedBy(s[..l], key);
      SortBySortedIsIdentity(s[..l], key);
      if l > 0 { assert key(s[..l][l - 1]) <= key(s[l]); }
      assert InsertBy(s[..l], s[l], key) == s[..l] + [s[l]];
      assert s == s[..l] + [s[l]];
    }
  }

  /** The elements of s whose key is k, in their order in s. */
  function WithKey<T>(s: seq<T>, key: T -> real, k: real): seq<T>
    decreases |s|
  {
    if |s| == 0 then []
    else WithKey(s[..|s| - 1], key, k) + (if key(s[|s| - 1]) == k then [s[|s| - 1]] else [])
  }

  /**
    The sort is stable: for every key, the elements with that key come out
    in the order they went in.
   */
  lemma {:induction false} SortByStable<T>(s: seq<T>, key: T -> real, k: real)
    ensures WithKey(SortBy(s, key), key, k) == WithKey(s, key, k)
    decreases |s|
  {
    if |s| > 0 {
      var l := |s| - 1;
      SortByStable(s[..l], key, k);
      InsertByStable(SortBy(s[..l], key), s[l], key, k);
    }
  }

  /** Inserting x adds x at the end of its key's elements and moves no other. */
  lemma {:induction false} InsertByStable<T>(s: seq<T>, x: T, key: T -> real, k: real)
    ensures WithKey(InsertBy(s, x, key), key, k) == WithKey(s, key, k) + (if key(x) == k then [x] else [])
    decreases |s|
  {
    var r := InsertBy(s, x, key);
    if |s| == 0 || key(s[|s| - 1]) <= key(x) {
      assert r[..|r| - 1] == s;
    } else {
      var l := |s| - 1;
      InsertByStable(s[..l], x, key, k);
      assert r[..|r| - 1] == InsertBy(s[..l], x, key);
      assert s[..|s| - 1] == s[..l];
    }
  }

  /** Sorting a list without repeated elements keeps it without repeats. */
  lemma {:induction false} SortByDistinct<T>(s: seq<T>, key: T -> real)
    requires Distinct(s)
    ensures Distinct(SortBy(s, key))
    decreases |s|
  {
    if |s| > 0 {
      var l := |s| - 1;
      SortByDistinct(s[..l], key);
      SortBySortsAndPermutes(s[..l], key);
      assert s[l] !in multiset(s[..l]);
      InsertByDistinct(SortBy(s[..l], key), s[l], key);
    }
  }

  lemma {:induction false} InsertByDistinct<T>(s: seq<T>, x: T, key: T -> real)
    requires Distinct(s) && x !in multiset(s)
    ensures Distinct(InsertBy(s, x, key))
    decreases |s|
  {
    if |s| > 0 && key(s[|s| - 1]) > key(x) {
      var l := |s| - 1;
      assert s == s[..l] + [s[l]];
      assert x !in multiset(s[..l]);
      InsertByDistinct(s[..l], x, key);
      var r := InsertBy(s[..l], x, key);
      InsertByPermutes(s[..l], x, key);
      forall k | 0 <= k < |r| ensures r[k] != s[l] {
        assert r[k] in multiset(r);
        if r[k] != x {
          assert r[k] in multiset(s[..l]);
        }
      }
    }
  }
}
