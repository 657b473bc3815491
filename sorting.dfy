/**
 * Stable sorting by a numeric key, the behaviour of JavaScript's
 * `Array.prototype.sort` with a comparator `(a, b) => key(a) - key(b)`:
 * elements with equal keys keep their relative order. A descending sort
 * is a sort by the negated key.
 */
module Sorting {

  /** `s` is in non-decreasing order of `key`. */
  ghost predicate SortedBy<T>(s: seq<T>, key: T -> real) {
    forall i, j :: 0 <= i < j < |s| ==> key(s[i]) <= key(s[j])
  }

  /** The elements of `s` whose key is `v`, in their order in `s`. */
  function KeyFilter<T>(s: seq<T>, key: T -> real, v: real): seq<T> {
    if s == [] then [] else (if key(s[0]) == v then [s[0]] else []) + KeyFilter(s[1..], key, v)
  }

  lemma KeyFilterCons<T>(y: T, t: seq<T>, key: T -> real)
    ensures forall v :: KeyFilter([y] + t, key, v) == (if key(y) == v then [y] else []) + KeyFilter(t, key, v)
  {
    assert ([y] + t)[1..] == t;
  }

  /**
   * Inserts `x` in front of the first element of the sorted `s` whose key is
   * not smaller than `x`'s; `x` is taken to come before all of `s`, so it
   * lands ahead of the elements whose key equals its own.
   */
  function Insert<T>(x: T, s: seq<T>, key: T -> real): (r: seq<T>)
    requires SortedBy(s, key)
    ensures |r| == |s| + 1
    ensures multiset(r) == multiset(s) + multiset{x}
    ensures SortedBy(r, key)
    ensures r[0] == if s == [] || key(x) <= key(s[0]) then x else s[0]
    ensures forall v ::
      KeyFilter(r, key, v) == if key(x) == v then [x] + KeyFilter(s, key, v) else KeyFilter(s, key, v)
  {
    if s == [] || key(x) <= key(s[0]) then
      PrependSorted(x, s, key);
      KeyFilterCons(x, s, key);
      [x] + s
    else
      var rest := Insert(x, s[1..], key);
      InsertBehindHead(x, s, rest, key);
      FilterBehindHead(x, s, rest, key);
      [s[0]] + rest
  }

  /** The head of `s`, with a smaller key than `x`, is in none of `x`'s key-`v` elements. */
  lemma FilterBehindHead<T>(x: T, s: seq<T>, rest: seq<T>, key: T -> real)
    requires s != [] && key(s[0]) < key(x)
    requires forall v ::
      KeyFilter(rest, key, v) == if key(x) == v then [x] + KeyFilter(s[1..], key, v) else KeyFilter(s[1..], key, v)
    ensures forall v ::
      KeyFilter([s[0]] + rest, key, v) == if key(x) == v then [x] + KeyFilter(s, key, v) else KeyFilter(s, key, v)
  {
    KeyFilterCons(s[0], rest, key);
    KeyFilterCons(s[0], s[1..], key);
    assert s == [s[0]] + s[1..];
  }

  lemma PrependSorted<T>(x: T, s: seq<T>, key: T -> real)
    requires SortedBy(s, key) && (s == [] || key(x) <= key(s[0]))
    ensures SortedBy([x] + s, key)
  {
    var r := [x] + s;
    forall i, j | 0 <= i < j < |r| ensures key(r[i]) <= key(r[j]) {
      if i == 0 && j > 1 {
        assert key(s[0]) <= key(s[j - 1]);
      }
    }
  }

  /** The head of `s` followed by `x` inserted into the rest of `s`. */
  lemma InsertBehindHead<T>(x: T, s: seq<T>, rest: seq<T>, key: T -> real)
    requires SortedBy(s, key) && s != [] && key(s[0]) < key(x)
    requires SortedBy(rest, key) && multiset(rest) == multiset(s[1..]) + multiset{x}
    ensures SortedBy([s[0]] + rest, key)
    ensures multiset([s[0]] + rest) == multiset(s) + multiset{x}
  {
    assert s == [s[0]] + s[1..];
    forall y | y in rest ensures key(s[0]) <= key(y) {
      assert y in multiset(rest);
      if y != x {
        assert y in multiset(s[1..]);
        var k :| 0 <= k < |s[1..]| && s[1..][k] == y;
        assert s[k + 1] == y;
      }
    }
    var r := [s[0]] + rest;
    forall i, j | 0 <= i < j < |r| ensures key(r[i]) <= key(r[j]) {
      assert r[j] == rest[j - 1];
      if i == 0 {
        assert r[j] in rest;
      } else {
        assert r[i] == rest[i - 1];
      }
    }
  }

  /** The stable sort of `s` by `key`: a permutation of `s` in key order. */
  function SortBy<T>(s: seq<T>, key: T -> real): (r: seq<T>)
    ensures |r| == |s|
    ensures multiset(r) == multiset(s)
    ensures SortedBy(r, key)
    ensures forall v :: KeyFilter(r, key, v) == KeyFilter(s, key, v)
  {
    if s == [] then []
    else
      assert s == [s[0]] + s[1..];
      KeyFilterCons(s[0], s[1..], key);
      Insert(s[0], SortBy(s[1..], key), key)
  }

  /** Every element of `s` with key `v` has a place among the key-`v` elements. */
  lemma {:induction false} KeyFilterHas<T>(s: seq<T>, key: T -> real, v: real, j: nat)
    requires j < |s| && key(s[j]) == v
    ensures exists b :: 0 <= b < |KeyFilter(s, key, v)| && KeyFilter(s, key, v)[b] == s[j]
  {
    var f := KeyFilter(s, key, v);
    if j == 0 {
      assert f[0] == s[0];
    } else {
      var t := s[1..];
      KeyFilterHas(t, key, v, j - 1);
      var b :| 0 <= b < |KeyFilter(t, key, v)| && KeyFilter(t, key, v)[b] == t[j - 1];
      var pre := if key(s[0]) == v then [s[0]] else [];
      assert f == pre + KeyFilter(t, key, v);
      assert f[|pre| + b] == s[j];
    }
  }

  /** Two key-`v` elements of `s` keep their order among the key-`v` elements. */
  lemma {:induction false} KeyFilterKeepsOrder<T>(s: seq<T>, key: T -> real, v: real, i: nat, j: nat)
    requires i < j < |s| && key(s[i]) == v && key(s[j]) == v
    ensures exists a, b ::
      && 0 <= a < b < |KeyFilter(s, key, v)|
      && KeyFilter(s, key, v)[a] == s[i] && KeyFilter(s, key, v)[b] == s[j]
  {
    var f := KeyFilter(s, key, v);
    var t := s[1..];
    var pre := if key(s[0]) == v then [s[0]] else [];
    assert f == pre + KeyFilter(t, key, v);
    if i == 0 {
      KeyFilterHas(t, key, v, j - 1);
      var b :| 0 <= b < |KeyFilter(t, key, v)| && KeyFilter(t, key, v)[b] == t[j - 1];
      assert f[0] == s[0] && f[1 + b] == s[j];
    } else {
      KeyFilterKeepsOrder(t, key, v, i - 1, j - 1);
      var a, b :|
        && 0 <= a < b < |KeyFilter(t, key, v)|
        && KeyFilter(t, key, v)[a] == t[i - 1] && KeyFilter(t, key, v)[b] == t[j - 1];
      assert f[|pre| + a] == s[i] && f[|pre| + b] == s[j];
    }
  }

  /** Every key-`v` element comes from `s`. */
  lemma {:induction false} KeyFilterFrom<T>(s: seq<T>, key: T -> real, v: real, a: nat)
    requires a < |KeyFilter(s, key, v)|
    ensures exists i :: 0 <= i < |s| && s[i] == KeyFilter(s, key, v)[a]
  {
    var t := s[1..];
    var pre := if key(s[0]) == v then [s[0]] else [];
    assert KeyFilter(s, key, v) == pre + KeyFilter(t, key, v);
    if a < |pre| {
      assert s[0] == KeyFilter(s, key, v)[a];
    } else {
      KeyFilterFrom(t, key, v, a - |pre|);
      var i :| 0 <= i < |t| && t[i] == KeyFilter(t, key, v)[a - |pre|];
      assert s[i + 1] == t[i];
    }
  }

  /** The key-`v` elements appear in `s` in the same order. */
  lemma {:induction false} KeyFilterOrderFrom<T>(s: seq<T>, key: T -> real, v: real, a: nat, b: nat)
    requires a < b < |KeyFilter(s, key, v)|
    ensures exists i, j :: 0 <= i < j < |s| && s[i] == KeyFilter(s, key, v)[a] && s[j] == KeyFilter(s, key, v)[b]
  {
    var f := KeyFilter(s, key, v);
    var t := s[1..];
    var g := KeyFilter(t, key, v);
    var pre := if key(s[0]) == v then [s[0]] else [];
    assert f == pre + g;
    if a < |pre| {
      KeyFilterFrom(t, key, v, b - 1);
      var j :| 0 <= j < |t| && t[j] == g[b - 1];
      assert s[0] == f[a] && s[j + 1] == f[b];
    } else {
      KeyFilterOrderFrom(t, key, v, a - |pre|, b - |pre|);
      var i, j :| 0 <= i < j < |t| && t[i] == g[a - |pre|] && t[j] == g[b - |pre|];
      assert s[i + 1] == f[a] && s[j + 1] == f[b];
    }
  }

  /** Stability: two sorted elements with equal keys occur in the same order in the input. */
  lemma SortKeepsTieOrder<T>(s: seq<T>, key: T -> real, i: nat, j: nat)
    requires i < j < |SortBy(s, key)| && key(SortBy(s, key)[i]) == key(SortBy(s, key)[j])
    ensures exists i', j' :: 0 <= i' < j' < |s| && s[i'] == SortBy(s, key)[i] && s[j'] == SortBy(s, key)[j]
  {
    var r := SortBy(s, key);
    var v := key(r[i]);
    KeyFilterKeepsOrder(r, key, v, i, j);
    var a, b :| 0 <= a < b < |KeyFilter(r, key, v)| && KeyFilter(r, key, v)[a] == r[i] && KeyFilter(r, key, v)[b] == r[j];
    KeyFilterOrderFrom(s, key, v, a, b);
  }

  /** Reference definition: the first position of a smallest key. */
  function FirstMinIndex<T>(s: seq<T>, key: T -> real): (i: nat)
    requires |s| > 0
    ensures i < |s|
    ensures forall j :: 0 <= j < |s| ==> key(s[i]) <= key(s[j])
    ensures forall j :: 0 <= j < i ==> key(s[i]) < key(s[j])
  {
    if |s| == 1 then 0
    else
      var k := FirstMinIndex(s[1..], key) + 1;
      if key(s[0]) <= key(s[k]) then 0 else k
  }

  /**
   * Stability where it matters for a "take the head" caller: the first element
   * of the sorted sequence is the EARLIEST element with the smallest key.
   */
  lemma {:induction false} SortHeadIsFirstMinimum<T>(s: seq<T>, key: T -> real)
    requires |s| > 0
    ensures SortBy(s, key)[0] == s[FirstMinIndex(s, key)]
  {
    if |s| > 1 {
      SortHeadIsFirstMinimum(s[1..], key);
    }
  }

  /** Sorting keeps every element and adds none. */
  lemma SortKeepsMembers<T>(s: seq<T>, key: T -> real)
    ensures forall x :: x in SortBy(s, key) <==> x in s
  {
    var r := SortBy(s, key);
    forall x ensures x in r <==> x in s {
      assert x in r <==> x in multiset(r);
      assert x in s <==> x in multiset(s);
    }
  }

  /** `f` takes distinct values on the elements of `s`. */
  ghost predicate DistinctBy<T, K>(s: seq<T>, f: T -> K) {
    forall i, j :: 0 <= i < j < |s| ==> f(s[i]) != f(s[j])
  }

  lemma PrependKeepsDistinct<T, K>(y: T, s: seq<T>, f: T -> K)
    requires DistinctBy(s, f)
    requires forall z :: z in s ==> f(z) != f(y)
    ensures DistinctBy([y] + s, f)
  {
    var r := [y] + s;
    forall i, j | 0 <= i < j < |r| ensures f(r[i]) != f(r[j]) {
      assert r[j] == s[j - 1];
      if i > 0 {
        assert r[i] == s[i - 1];
      }
    }
  }

  lemma {:induction false} InsertKeepsDistinct<T, K>(x: T, s: seq<T>, key: T -> real, f: T -> K)
    requires SortedBy(s, key) && DistinctBy(s, f)
    requires forall y :: y in s ==> f(y) != f(x)
    ensures DistinctBy(Insert(x, s, key), f)
  {
    if s == [] || key(x) <= key(s[0]) {
      PrependKeepsDistinct(x, s, f);
    } else {
      var tail := s[1..];
      assert DistinctBy(tail, f) by {
        forall i, j | 0 <= i < j < |tail| ensures f(tail[i]) != f(tail[j]) {
          assert tail[i] == s[i + 1] && tail[j] == s[j + 1];
        }
      }
      var rest := Insert(x, tail, key);
      InsertKeepsDistinct(x, tail, key, f);
      forall y | y in rest ensures f(y) != f(s[0]) {
        assert y in multiset(rest);
        if y != x {
          assert y in multiset(tail);
          var k :| 0 <= k < |tail| && tail[k] == y;
          assert s[k + 1] == y;
        }
      }
      PrependKeepsDistinct(s[0], rest, f);
    }
  }

  /** A sequence whose elements have pairwise distinct `f` keeps that after sorting. */
  lemma {:induction false} SortKeepsDistinct<T, K>(s: seq<T>, key: T -> real, f: T -> K)
    requires DistinctBy(s, f)
    ensures DistinctBy(SortBy(s, key), f)
  {
    if s != [] {
      var rest := s[1..];
      assert DistinctBy(rest, f) by {
        forall i, j | 0 <= i < j < |rest| ensures f(rest[i]) != f(rest[j]) {
          assert rest[i] == s[i + 1] && rest[j] == s[j + 1];
        }
      }
      SortKeepsDistinct(rest, key, f);
      forall y | y in SortBy(rest, key) ensures f(y) != f(s[0]) {
        assert y in multiset(SortBy(rest, key));
        assert y in multiset(rest);
        var k :| 0 <= k < |rest| && rest[k] == y;
        assert s[k + 1] == y;
      }
      InsertKeepsDistinct(s[0], SortBy(rest, key), key, f);
    }
  }
}
