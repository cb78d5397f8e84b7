/** Filters, prefixes and distinctness of sequences, as the other modules need them. */
module Sequences {

  predicate Distinct<T(==)>(s: seq<T>) {
    forall i, j | 0 <= i < j < |s| :: s[i] != s[j]
  }

  function Elements<T>(s: seq<T>): set<T> {
    set x <- s
  }

  function Map<T, U>(f: T -> U, s: seq<T>): (r: seq<U>)
    ensures |r| == |s| && forall i | 0 <= i < |s| :: r[i] == f(s[i])
  {
    seq(|s|, i requires 0 <= i < |s| => f(s[i]))
  }

  function Filter<T(!new)>(s: seq<T>, p: T -> bool): (r: seq<T>)
    ensures forall x :: x in r <==> x in s && p(x)
    ensures |r| <= |s|
  {
    if s == [] then []
    else
      var x, rest := s[|s| - 1], Filter(s[..|s| - 1], p);
      assert s == s[..|s| - 1] + [x];
      if p(x) then rest + [x] else rest
  }

  lemma {:induction false} FilterAppend<T(!new)>(s: seq<T>, x: T, p: T -> bool)
    ensures Filter(s + [x], p) == Filter(s, p) + (if p(x) then [x] else [])
  {
    assert (s + [x])[..|s|] == s;
  }

  /** Filtering twice is filtering once by both conditions. */
  lemma {:induction false} FilterTwice<T(!new)>(s: seq<T>, p: T -> bool, q: T -> bool, both: T -> bool)
    requires forall x <- s :: both(x) <==> p(x) && q(x)
    ensures Filter(Filter(s, p), q) == Filter(s, both)
  {
    if s != [] {
      var x, rest := s[|s| - 1], s[..|s| - 1];
      assert s == rest + [x];
      FilterTwice(rest, p, q, both);
      if p(x) { FilterAppend(Filter(rest, p), x, q); }
    }
  }

  lemma {:induction false} FilterSame<T(!new)>(s: seq<T>, p: T -> bool, q: T -> bool)
    requires forall x <- s :: p(x) <==> q(x)
    ensures Filter(s, p) == Filter(s, q)
  {
    if s != [] { FilterSame(s[..|s| - 1], p, q); }
  }

  lemma {:induction false} FilterAll<T(!new)>(s: seq<T>, p: T -> bool)
    requires forall x <- s :: p(x)
    ensures Filter(s, p) == s
  {
    if s != [] { FilterAll(s[..|s| - 1], p); }
  }

  lemma {:induction false} FilterDistinct<T(!new)>(s: seq<T>, p: T -> bool)
    requires Distinct(s)
    ensures Distinct(Filter(s, p))
  {
    if s != [] {
      FilterDistinct(s[..|s| - 1], p);
      assert s[|s| - 1] !in s[..|s| - 1];
    }
  }

  lemma {:induction false} DistinctCount<T>(s: seq<T>)
    requires Distinct(s)
    ensures |Elements(s)| == |s|
  {
    if s != [] {
      var init, last := s[..|s| - 1], s[|s| - 1];
      DistinctCount(init);
      assert s == init + [last] && last !in Elements(init);
      assert Elements(s) == Elements(init) + {last};
    }
  }

  lemma SubsetSize<T>(a: set<T>, b: set<T>)
    requires a <= b
    ensures |a| <= |b|
  {
    assert b == a + (b - a);
  }

  /** The elements of `s` at these positions, in order. */
  predicate Selects<T(==)>(t: seq<T>, s: seq<T>, at: seq<nat>) {
    && |t| == |at| && (forall i | 0 <= i < |at| :: at[i] < |s| && t[i] == s[at[i]])
    && forall i, j | 0 <= i < j < |at| :: at[i] < at[j]
  }

  /** A filter selects exactly the positions whose elements pass. */
  lemma {:induction false} FilterSelects<T(!new)>(s: seq<T>, p: T -> bool) returns (at: seq<nat>)
    ensures Selects(Filter(s, p), s, at)
    ensures forall i | 0 <= i < |s| :: i in at <==> p(s[i])
  {
    at := [];
    if s != [] {
      var n := |s| - 1;
      at := FilterSelects(s[..n], p);
      SelectsLonger(Filter(s[..n], p), s, at, n);
      if p(s[n]) {
        SelectsMore(Filter(s[..n], p), s, at, n);
        at := at + [n];
      }
    }
  }

  lemma SelectsLonger<T>(t: seq<T>, s: seq<T>, at: seq<nat>, n: nat)
    requires n < |s| && Selects(t, s[..n], at)
    ensures Selects(t, s, at) && n !in at && forall i | 0 <= i < |at| :: at[i] < n
  {
    forall i | 0 <= i < |at| ensures at[i] < n && t[i] == s[at[i]] {
      assert s[..n][at[i]] == s[at[i]];
    }
  }

  lemma SelectsMore<T>(t: seq<T>, s: seq<T>, at: seq<nat>, n: nat)
    requires n < |s| && Selects(t, s, at) && forall i | 0 <= i < |at| :: at[i] < n
    ensures Selects(t + [s[n]], s, at + [n])
    ensures forall i :: i in at + [n] <==> i in at || i == n
  {
  }

  lemma MapSelects<T, U>(f: T -> U, t: seq<T>, s: seq<T>, at: seq<nat>)
    requires Selects(t, s, at)
    ensures Selects(Map(f, t), Map(f, s), at)
  {
  }

  /** The first of a filter is the first element that passes. */
  lemma {:induction false} FilterFirst<T(!new)>(s: seq<T>, p: T -> bool) returns (k: nat)
    ensures Filter(s, p) == [] <==> forall x <- s :: !p(x)
    ensures Filter(s, p) != [] ==>
      k < |s| && s[k] == Filter(s, p)[0] && p(s[k]) && forall l | 0 <= l < k :: !p(s[l])
  {
    var n := |s|;
    k := 0;
    if s != [] {
      k := FilterFirst(s[..n - 1], p);
      assert s == s[..n - 1] + [s[n - 1]];
      if Filter(s[..n - 1], p) == [] { k := n - 1; }
    }
  }
}
