/** Sequence helpers shared by the ledger, the dashboard and the analytics
    screen: JavaScript's order-preserving `filter`, `reduce`-style sums, and
    the stable `sort` that `Array.prototype.sort` performs. */
module Seqs {

  /** `s.filter(p)`: the elements of `s` that satisfy `p`, in their order. */
  function Filter<T>(s: seq<T>, p: T -> bool): (r: seq<T>)
    ensures |r| <= |s|
    ensures forall i :: 0 <= i < |r| ==> p(r[i]) && r[i] in s
    decreases |s|
  {
    if s == [] then [] else (if p(s[0]) then [s[0]] else []) + Filter(s[1..], p)
  }

  /** `r` is obtained from `s` by deleting elements, keeping the order. */
  ghost predicate IsSubsequence<T>(r: seq<T>, s: seq<T>)
    decreases |s|
  {
    if r == [] then true
    else if s == [] then false
    else (r[0] == s[0] && IsSubsequence(r[1..], s[1..])) || IsSubsequence(r, s[1..])
  }

  /** No element occurs twice. */
  ghost predicate NoDup<T>(s: seq<T>)
  {
    forall i, j :: 0 <= i < j < |s| ==> s[i] != s[j]
  }

  /** The filter keeps every occurrence of a satisfying element and drops
      every occurrence of the others. */
  lemma {:induction false} FilterCount<T>(s: seq<T>, p: T -> bool, x: T)
    ensures multiset(Filter(s, p))[x] == if p(x) then multiset(s)[x] else 0
    decreases |s|
  {
    if s != [] {
      FilterCount(s[1..], p, x);
      assert s == [s[0]] + s[1..];
    }
  }

  /** Filtering a sequence with a known first element. */
  lemma FilterCons<T>(x: T, s: seq<T>, p: T -> bool)
    ensures Filter([x] + s, p) == (if p(x) then [x] else []) + Filter(s, p)
  {
    assert ([x] + s)[1..] == s;
  }

  lemma {:induction false} FilterSubsequence<T>(s: seq<T>, p: T -> bool)
    ensures IsSubsequence(Filter(s, p), s)
    decreases |s|
  {
    if s != [] {
      FilterSubsequence(s[1..], p);
      var r := Filter(s, p);
      if p(s[0]) {
        assert r == [s[0]] + Filter(s[1..], p);
        assert r[0] == s[0] && r[1..] == Filter(s[1..], p);
      } else {
        assert r == Filter(s[1..], p);
      }
    }
  }

  /** A filter that every element passes changes nothing. */
  lemma {:induction false} FilterKeepsAll<T>(s: seq<T>, p: T -> bool)
    requires forall i :: 0 <= i < |s| ==> p(s[i])
    ensures Filter(s, p) == s
    decreases |s|
  {
    if s != [] {
      FilterKeepsAll(s[1..], p);
    }
  }

  /** A filter that no element passes gives the empty sequence. */
  lemma {:induction false} FilterDropsAll<T>(s: seq<T>, p: T -> bool)
    requires forall i :: 0 <= i < |s| ==> !p(s[i])
    ensures Filter(s, p) == []
    decreases |s|
  {
    if s != [] {
      FilterDropsAll(s[1..], p);
    }
  }

  lemma {:induction false} FilterConcat<T>(a: seq<T>, b: seq<T>, p: T -> bool)
    ensures Filter(a + b, p) == Filter(a, p) + Filter(b, p)
    decreases |a|
  {
    if a == [] {
      assert a + b == b;
    } else {
      FilterConcat(a[1..], b, p);
      assert (a + b)[0] == a[0] && (a + b)[1..] == a[1..] + b;
      var h := if p(a[0]) then [a[0]] else [];
      assert Filter(a + b, p) == h + (Filter(a[1..], p) + Filter(b, p));
    }
  }

  /** Filtering twice with the same predicate is filtering once. */
  lemma FilterIdempotent<T>(s: seq<T>, p: T -> bool)
    ensures Filter(Filter(s, p), p) == Filter(s, p)
  {
    var r := Filter(s, p);
    FilterKeepsAll(r, p);
  }

  /** Filtering commutes with reordering: it depends on the multiset only. */
  lemma FilterPermutation<T>(a: seq<T>, b: seq<T>, p: T -> bool)
    requires multiset(a) == multiset(b)
    ensures multiset(Filter(a, p)) == multiset(Filter(b, p))
  {
    forall x ensures multiset(Filter(a, p))[x] == multiset(Filter(b, p))[x] {
      FilterCount(a, p, x);
      FilterCount(b, p, x);
    }
  }

  /** A filter and its complement together hold every element exactly once. */
  lemma FilterSplit<T>(s: seq<T>, p: T -> bool, q: T -> bool)
    requires forall x :: q(x) == !p(x)
    ensures multiset(Filter(s, p)) + multiset(Filter(s, q)) == multiset(s)
  {
    forall x ensures (multiset(Filter(s, p)) + multiset(Filter(s, q)))[x] == multiset(s)[x] {
      FilterCount(s, p, x);
      FilterCount(s, q, x);
    }
  }

  /** The filter of a duplicate-free sequence is duplicate-free. */
  lemma FilterNoDup<T>(s: seq<T>, p: T -> bool)
    requires NoDup(s)
    ensures NoDup(Filter(s, p))
  {
    var r := Filter(s, p);
    forall x ensures multiset(r)[x] <= 1 {
      NoDupCount(s, x);
      FilterCount(s, p, x);
    }
    CountsNoDup(r);
  }

  /** `s.reduce((sum, x) => sum + f(x), 0)`. */
  function SumBy<T>(s: seq<T>, f: T -> real): real
    decreases |s|
  {
    if s == [] then 0.0 else f(s[0]) + SumBy(s[1..], f)
  }

  lemma {:induction false} SumByConcat<T>(a: seq<T>, b: seq<T>, f: T -> real)
    ensures SumBy(a + b, f) == SumBy(a, f) + SumBy(b, f)
    decreases |a|
  {
    if a != [] {
      assert a + b != [] && (a + b)[0] == a[0];
      assert (a + b)[1..] == a[1..] + b;
      SumByConcat(a[1..], b, f);
      assert SumBy(a + b, f) == f(a[0]) + SumBy(a[1..] + b, f);
    } else {
      assert a + b == b;
    }
  }

  /** Taking out the element at `k` takes its term out of the sum. */
  lemma SumByRemove<T>(b: seq<T>, k: int, f: T -> real)
    requires 0 <= k < |b|
    ensures SumBy(b, f) == f(b[k]) + SumBy(b[..k] + b[k + 1..], f)
  {
    assert b == b[..k] + [b[k]] + b[k + 1..];
    SumByConcat(b[..k] + [b[k]], b[k + 1..], f);
    SumByConcat(b[..k], [b[k]], f);
    SumByConcat(b[..k], b[k + 1..], f);
    assert [b[k]][1..] == [];
  }

  lemma MultisetRemove<T>(b: seq<T>, k: int)
    requires 0 <= k < |b|
    ensures multiset(b[..k] + b[k + 1..]) == multiset(b) - multiset{b[k]}
  {
    assert b == b[..k] + [b[k]] + b[k + 1..];
  }

  /** A sum does not depend on the order of its terms. */
  lemma {:induction false} SumByPermutation<T>(a: seq<T>, b: seq<T>, f: T -> real)
    requires multiset(a) == multiset(b)
    ensures SumBy(a, f) == SumBy(b, f)
    decreases |a|
  {
    if a == [] {
      assert |b| == |multiset(b)| == 0;
    } else {
      var x := a[0];
      assert x in multiset(b);
      var k :| 0 <= k < |b| && b[k] == x;
      var rest := b[..k] + b[k + 1..];
      MultisetRemove(b, k);
      MultisetTail(a);
      SumByPermutation(a[1..], rest, f);
      SumByRemove(b, k, f);
    }
  }

  lemma MultisetTail<T>(a: seq<T>)
    requires a != []
    ensures multiset(a[1..]) == multiset(a) - multiset{a[0]}
  {
    assert a == [a[0]] + a[1..];
  }

  lemma {:induction false} NoDupCount<T>(s: seq<T>, x: T)
    requires NoDup(s)
    ensures multiset(s)[x] <= 1
    decreases |s|
  {
    if s != [] {
      assert s == [s[0]] + s[1..];
      NoDupCount(s[1..], x);
      if s[0] == x {
        assert x !in s[1..];
      }
    }
  }

  lemma CountsNoDup<T>(s: seq<T>)
    requires forall x :: multiset(s)[x] <= 1
    ensures NoDup(s)
  {
    forall i, j | 0 <= i < j < |s| ensures s[i] != s[j] {
      assert s == s[..j] + s[j..];
      assert s[i] in s[..j] && s[j] in s[j..];
      assert multiset(s) == multiset(s[..j]) + multiset(s[j..]);
      assert multiset(s[..j])[s[i]] >= 1 && multiset(s[j..])[s[j]] >= 1;
      assert multiset(s)[s[i]] <= 1;
    }
  }

  /** Reordering keeps a sequence duplicate-free. */
  lemma NoDupPermutation<T>(a: seq<T>, b: seq<T>)
    requires NoDup(a) && multiset(a) == multiset(b)
    ensures NoDup(b)
  {
    forall x ensures multiset(b)[x] <= 1 {
      NoDupCount(a, x);
    }
    CountsNoDup(b);
  }

  /** A duplicate-free sequence has as many elements as its set. */
  lemma {:induction false} NoDupCardinality<T>(s: seq<T>)
    requires NoDup(s)
    ensures |set x | x in s| == |s|
    decreases |s|
  {
    if s != [] {
      NoDupCardinality(s[1..]);
      assert (set x | x in s) == {s[0]} + (set x | x in s[1..]);
      assert s[0] !in s[1..];
    }
  }

  /** Keys non-decreasing from left to right. */
  ghost predicate SortedBy<T>(s: seq<T>, key: T -> real)
  {
    forall i, j :: 0 <= i < j < |s| ==> key(s[i]) <= key(s[j])
  }

  /** Inserts `x` in front of the first element whose key is not smaller. */
  function InsertBy<T>(x: T, s: seq<T>, key: T -> real): (r: seq<T>)
    ensures multiset(r) == multiset(s) + multiset{x}
    decreases |s|
  {
    if s == [] || key(x) <= key(s[0]) then [x] + s
    else
      assert s == [s[0]] + s[1..];
      [s[0]] + InsertBy(x, s[1..], key)
  }

  lemma {:induction false} InsertBySorted<T>(x: T, s: seq<T>, key: T -> real)
    requires SortedBy(s, key)
    ensures SortedBy(InsertBy(x, s, key), key)
    decreases |s|
  {
    if s != [] && key(x) > key(s[0]) {
      var tail := InsertBy(x, s[1..], key);
      InsertBySorted(x, s[1..], key);
      forall k | 0 <= k < |tail| ensures key(s[0]) <= key(tail[k]) {
        assert tail[k] in multiset(tail);
        assert tail[k] == x || tail[k] in multiset(s[1..]);
      }
    }
  }

  /** The stable sort of `Array.prototype.sort` by ascending `key`:
      insertion sort placing each element before its equals from later on. */
  function SortBy<T>(s: seq<T>, key: T -> real): (r: seq<T>)
    ensures multiset(r) == multiset(s) && |r| == |s|
    ensures SortedBy(r, key)
    decreases |s|
  {
    if s == [] then []
    else
      assert s == [s[0]] + s[1..];
      InsertBySorted(s[0], SortBy(s[1..], key), key);
      InsertBy(s[0], SortBy(s[1..], key), key)
  }

  lemma {:induction false} InsertByStable<T>(x: T, s: seq<T>, key: T -> real, p: T -> bool, v: real)
    requires SortedBy(s, key)
    requires forall y :: p(y) <==> key(y) == v
    ensures Filter(InsertBy(x, s, key), p) == Filter([x] + s, p)
    decreases |s|
  {
    if s != [] && key(x) > key(s[0]) {
      InsertByStable(x, s[1..], key, p, v);
      var tail := InsertBy(x, s[1..], key);
      assert InsertBy(x, s, key) == [s[0]] + tail;
      assert s == [s[0]] + s[1..];
      FilterCons(s[0], tail, p);
      FilterCons(x, s[1..], p);
      FilterCons(s[0], s[1..], p);
      FilterCons(x, s, p);
      if p(s[0]) {
        assert !p(x) && key(s[0]) == v;
        assert [] + Filter(s[1..], p) == Filter(s[1..], p);
      } else {
        assert [] + Filter(tail, p) == Filter(tail, p);
        assert [] + Filter(s[1..], p) == Filter(s[1..], p);
      }
    }
  }

  /** Stability: the elements sharing one key value keep their relative order. */
  lemma {:induction false} SortByStable<T>(s: seq<T>, key: T -> real, p: T -> bool, v: real)
    requires forall y :: p(y) <==> key(y) == v
    ensures Filter(SortBy(s, key), p) == Filter(s, p)
    decreases |s|
  {
    if s != [] {
      SortByStable(s[1..], key, p, v);
      InsertByStable(s[0], SortBy(s[1..], key), key, p, v);
      FilterCons(s[0], SortBy(s[1..], key), p);
      assert s == [s[0]] + s[1..];
      FilterCons(s[0], s[1..], p);
    }
  }
}
