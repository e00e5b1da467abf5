/** `Array.prototype.filter` and `Array.prototype.find` on immutable sequences. */
module Sequences {
  import opened Wrappers

  /** `sub` is `s` with some elements dropped, the rest kept in order. */
  predicate Subsequence<T(==)>(sub: seq<T>, s: seq<T>)
    decreases |s|
  {
    if sub == [] then true
    else if s == [] then false
    else (sub[0] == s[0] && Subsequence(sub[1..], s[1..])) || Subsequence(sub, s[1..])
  }

  /** `s.filter(p)`: the elements satisfying `p`, in their original order. */
  function Filter<T(==,!new)>(s: seq<T>, p: T -> bool): (r: seq<T>)
    ensures Subsequence(r, s)
    ensures forall i | 0 <= i < |r| :: p(r[i])
    decreases |s|
  {
    if s == [] then []
    else
      var rest := Filter(s[1..], p);
      if p(s[0]) then
        var r := [s[0]] + rest;
        assert r[1..] == rest;
        r
      else rest
  }

  /** A filter keeps each element that satisfies `p` as many times as it occurs, and no other. */
  lemma {:induction false} FilterCount<T(!new)>(s: seq<T>, p: T -> bool, x: T)
    ensures multiset(Filter(s, p))[x] == if p(x) then multiset(s)[x] else 0
    decreases |s|
  {
    if s != [] {
      FilterCount(s[1..], p, x);
      assert s == [s[0]] + s[1..];
      if p(s[0]) {
        assert Filter(s, p) == [s[0]] + Filter(s[1..], p);
      }
    }
  }

  /** Filtering distributes over a leading element. */
  lemma FilterCons<T(!new)>(x: T, s: seq<T>, p: T -> bool)
    ensures Filter([x] + s, p) == (if p(x) then [x] else []) + Filter(s, p)
  {
    assert ([x] + s)[1..] == s;
  }

  /** `s.map(f)`. */
  function Map<A, B>(s: seq<A>, f: A -> B): (r: seq<B>)
    ensures |r| == |s| && forall i | 0 <= i < |s| :: r[i] == f(s[i])
  {
    seq(|s|, i requires 0 <= i < |s| => f(s[i]))
  }

  /** A filter keeps exactly the elements that satisfy the predicate. */
  lemma FilterMembership<T(!new)>(s: seq<T>, p: T -> bool, x: T)
    ensures x in Filter(s, p) <==> x in s && p(x)
  {
    var r := Filter(s, p);
    FilterCount(s, p, x);
    assert x in r <==> multiset(r)[x] > 0;
    assert x in s <==> multiset(s)[x] > 0;
  }

  /** A filter whose predicate every element satisfies keeps the whole sequence. */
  lemma {:induction false} FilterAll<T(!new)>(s: seq<T>, p: T -> bool)
    requires forall i | 0 <= i < |s| :: p(s[i])
    ensures Filter(s, p) == s
    decreases |s|
  {
    if s != [] {
      FilterAll(s[1..], p);
    }
  }

  /** A filter that no element passes is empty. */
  lemma FilterNone<T(!new)>(s: seq<T>, p: T -> bool)
    requires forall i | 0 <= i < |s| :: !p(s[i])
    ensures Filter(s, p) == []
  {
    var r := Filter(s, p);
    forall x ensures multiset(r)[x] == 0 {
      FilterCount(s, p, x);
    }
    assert multiset(r) == multiset{};
  }

  /** Position of the first element satisfying `p`, if any. */
  function FindIndex<T>(s: seq<T>, p: T -> bool): (r: Option<nat>)
    ensures r.Some? ==> r.value < |s| && p(s[r.value]) && forall j | 0 <= j < r.value :: !p(s[j])
    ensures r.None? <==> forall j | 0 <= j < |s| :: !p(s[j])
    decreases |s|
  {
    if s == [] then None
    else if p(s[0]) then Some(0)
    else
      match FindIndex(s[1..], p)
      case None => None
      case Some(i) => Some(i + 1)
  }

  /** `s.find(p)`: the first element satisfying `p`, or nothing when none does. */
  function Find<T>(s: seq<T>, p: T -> bool): (r: Option<T>)
    ensures r.None? <==> forall j | 0 <= j < |s| :: !p(s[j])
    ensures r.Some? ==> exists i | 0 <= i < |s| :: s[i] == r.value && p(s[i]) && forall j | 0 <= j < i :: !p(s[j])
  {
    match FindIndex(s, p)
    case None => None
    case Some(i) => Some(s[i])
  }

  // ---------------------------------------------------------------------------
  // `s.sort((a, b) => key(a) - key(b))`: a stable sort by an integer key
  // ---------------------------------------------------------------------------

  predicate SortedBy<T>(s: seq<T>, key: T -> int) {
    forall i, j | 0 <= i < j < |s| :: key(s[i]) <= key(s[j])
  }

  /** The elements of `s` whose key is `k`, in order. */
  function WithKey<T(==,!new)>(s: seq<T>, key: T -> int, k: int): seq<T> {
    Filter(s, (y: T) => key(y) == k)
  }

  /** An element whose key bounds every key of a sorted sequence from below can go in front of it. */
  lemma SortedCons<T>(y: T, s: seq<T>, key: T -> int)
    requires SortedBy(s, key)
    requires forall i | 0 <= i < |s| :: key(y) <= key(s[i])
    ensures SortedBy([y] + s, key)
  {
    var r := [y] + s;
    forall i, j | 0 <= i < j < |r| ensures key(r[i]) <= key(r[j]) {
      if i > 0 {
        assert r[i] == s[i - 1] && r[j] == s[j - 1];
      } else {
        assert r[j] == s[j - 1];
      }
    }
  }

  /** Inserts `x` in front of the first element whose key is not smaller. */
  function Insert<T(==,!new)>(x: T, t: seq<T>, key: T -> int): (r: seq<T>)
    requires SortedBy(t, key)
    ensures SortedBy(r, key)
    ensures multiset(r) == multiset(t) + multiset{x}
    ensures forall k :: WithKey(r, key, k) == (if key(x) == k then [x] else []) + WithKey(t, key, k)
    decreases |t|
  {
    if t == [] || key(x) <= key(t[0]) then
      InsertFront(x, t, key);
      [x] + t
    else
      var rest := Insert(x, t[1..], key);
      InsertBehind(x, t, rest, key);
      [t[0]] + rest
  }

  lemma InsertFront<T(!new)>(x: T, t: seq<T>, key: T -> int)
    requires SortedBy(t, key) && (t == [] || key(x) <= key(t[0]))
    ensures SortedBy([x] + t, key)
    ensures forall k :: WithKey([x] + t, key, k) == (if key(x) == k then [x] else []) + WithKey(t, key, k)
  {
    SortedCons(x, t, key);
    forall k ensures WithKey([x] + t, key, k) == (if key(x) == k then [x] else []) + WithKey(t, key, k) {
      FilterCons(x, t, (y: T) => key(y) == k);
    }
  }

  lemma InsertBehind<T(!new)>(x: T, t: seq<T>, rest: seq<T>, key: T -> int)
    requires SortedBy(t, key) && t != [] && key(t[0]) < key(x)
    requires SortedBy(rest, key) && multiset(rest) == multiset(t[1..]) + multiset{x}
    requires forall k :: WithKey(rest, key, k) == (if key(x) == k then [x] else []) + WithKey(t[1..], key, k)
    ensures SortedBy([t[0]] + rest, key)
    ensures multiset([t[0]] + rest) == multiset(t) + multiset{x}
    ensures forall k :: WithKey([t[0]] + rest, key, k) == (if key(x) == k then [x] else []) + WithKey(t, key, k)
  {
    assert t == [t[0]] + t[1..];
    HeadBelowRest(x, t, rest, key);
    SortedCons(t[0], rest, key);
    forall k ensures WithKey([t[0]] + rest, key, k) == (if key(x) == k then [x] else []) + WithKey(t, key, k) {
      StableBehind(x, t, rest, key, k);
    }
  }

  lemma StableBehind<T(!new)>(x: T, t: seq<T>, rest: seq<T>, key: T -> int, k: int)
    requires t != [] && key(t[0]) < key(x)
    requires WithKey(rest, key, k) == (if key(x) == k then [x] else []) + WithKey(t[1..], key, k)
    ensures WithKey([t[0]] + rest, key, k) == (if key(x) == k then [x] else []) + WithKey(t, key, k)
  {
    var p := (y: T) => key(y) == k;
    var head := if key(t[0]) == k then [t[0]] else [];
    var mine := if key(x) == k then [x] else [];
    FilterCons(t[0], rest, p);
    FilterCons(t[0], t[1..], p);
    assert t == [t[0]] + t[1..];
    assert WithKey([t[0]] + rest, key, k) == head + mine + WithKey(t[1..], key, k);
    assert WithKey(t, key, k) == head + WithKey(t[1..], key, k);
    assert head == [] || mine == [];
  }

  lemma HeadBelowRest<T>(x: T, t: seq<T>, rest: seq<T>, key: T -> int)
    requires SortedBy(t, key) && t != [] && key(t[0]) < key(x)
    requires multiset(rest) == multiset(t[1..]) + multiset{x}
    ensures forall i | 0 <= i < |rest| :: key(t[0]) <= key(rest[i])
  {
    forall i | 0 <= i < |rest| ensures key(t[0]) <= key(rest[i]) {
      assert rest[i] in multiset(rest);
      if rest[i] != x {
        assert rest[i] in multiset(t[1..]);
        var j :| 0 <= j < |t[1..]| && t[1..][j] == rest[i];
        assert t[j + 1] == rest[i];
      }
    }
  }

  /**
   * A stable sort by key: the result is ordered by key, holds the same
   * elements, and keeps elements with equal keys in their original order.
   */
  function SortBy<T(==,!new)>(s: seq<T>, key: T -> int): (r: seq<T>)
    ensures SortedBy(r, key)
    ensures multiset(r) == multiset(s)
    ensures forall k :: WithKey(r, key, k) == WithKey(s, key, k)
    decreases |s|
  {
    if s == [] then []
    else
      var r := Insert(s[0], SortBy(s[1..], key), key);
      assert s == [s[0]] + s[1..];
      forall k ensures WithKey(r, key, k) == WithKey(s, key, k) {
        FilterCons(s[0], s[1..], (y: T) => key(y) == k);
      }
      r
  }
}
