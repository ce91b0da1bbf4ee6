/**
 * What the repositories ask of a MongoDB collection, stated over a sequence
 * held in storage order: filtering (`Find`), the first match
 * (`FirstOrDefault`, `ReplaceOne`, `UpdateOne`, `DeleteOne`), a descending
 * sort on a timestamp (`SortByDescending`) and the sums and counts that
 * LINQ takes over a fetched list.
 */
module Seqs {
  import opened Models

  // ------------------------------------------------------------- Filter

  /** The elements of `s` that satisfy `p`, in the order of `s`. */
  function Filter<T(==,!new)>(s: seq<T>, p: T -> bool): (r: seq<T>)
    ensures |r| <= |s|
    ensures forall x :: multiset(r)[x] == if p(x) then multiset(s)[x] else 0
    ensures forall x :: x in r <==> x in s && p(x)
  {
    if s == [] then []
    else
      assert s == [s[0]] + s[1..];
      (if p(s[0]) then [s[0]] else []) + Filter(s[1..], p)
  }

  /** Filtering twice is filtering once by the conjunction. */
  lemma {:induction false} FilterFilter<T(!new)>(s: seq<T>, p: T -> bool, q: T -> bool, pq: T -> bool)
    requires forall x :: pq(x) == (p(x) && q(x))
    ensures Filter(Filter(s, p), q) == Filter(s, pq)
  {
    if s != [] {
      FilterFilter(s[1..], p, q, pq);
      var fp := Filter(s, p);
      if p(s[0]) {
        assert fp == [s[0]] + Filter(s[1..], p);
        assert fp != [] && fp[0] == s[0] && fp[1..] == Filter(s[1..], p);
        var head := if q(s[0]) then [s[0]] else [];
        calc {
          Filter(fp, q);
          head + Filter(fp[1..], q);
          head + Filter(s[1..], pq);
          Filter(s, pq);
        }
      } else {
        assert fp == Filter(s[1..], p);
      }
    }
  }

  /** Permuting the input permutes the output. */
  lemma FilterPerm<T(!new)>(a: seq<T>, b: seq<T>, p: T -> bool)
    requires multiset(a) == multiset(b)
    ensures multiset(Filter(a, p)) == multiset(Filter(b, p))
  {
    assert forall x :: multiset(Filter(a, p))[x] == multiset(Filter(b, p))[x];
  }

  // ------------------------------------------------------------- First match

  /** The index of the first element of `s` that satisfies `p`. */
  function FirstIndex<T(==,!new)>(s: seq<T>, p: T -> bool): (r: Option<nat>)
    ensures r.Some? ==> r.value < |s| && p(s[r.value])
    ensures forall j :: 0 <= j < |s| && p(s[j]) ==> r.Some? && r.value <= j
  {
    if s == [] then None
    else if p(s[0]) then Some(0)
    else
      match FirstIndex(s[1..], p)
      case None => None
      case Some(i) => Some(i + 1)
  }

  /** The first element of `s` that satisfies `p` (`FirstOrDefault`). */
  function First<T(==,!new)>(s: seq<T>, p: T -> bool): (r: Option<T>)
    ensures r.Some? ==> r.value in s && p(r.value)
    ensures r.None? <==> forall x :: x in s ==> !p(x)
    ensures forall j :: 0 <= j < |s| && p(s[j]) && (forall k :: 0 <= k < j ==> !p(s[k])) ==> r == Some(s[j])
  {
    match FirstIndex(s, p)
    case None => None
    case Some(i) => Some(s[i])
  }

  /** The index of the first element whose key is `v`. */
  function IndexOfKey<T(==,!new)>(s: seq<T>, key: T -> string, v: string): (r: Option<nat>)
    ensures r.Some? ==> r.value < |s| && key(s[r.value]) == v
    ensures forall j :: 0 <= j < |s| && key(s[j]) == v ==> r.Some? && r.value <= j
  {
    FirstIndex(s, x => key(x) == v)
  }

  /** The first element whose key is `v`. */
  function FindByKey<T(==,!new)>(s: seq<T>, key: T -> string, v: string): (r: Option<T>)
    ensures r.Some? ==> r.value in s && key(r.value) == v
    ensures r.None? <==> KeyFree(s, key, v)
    ensures forall j :: 0 <= j < |s| && key(s[j]) == v && (forall k :: 0 <= k < j ==> key(s[k]) != v) ==> r == Some(s[j])
  {
    match IndexOfKey(s, key, v)
    case None => None
    case Some(i) => Some(s[i])
  }

  // ------------------------------------------------------------- Keys

  /** No two elements share a key (a collection keyed by Mongo's `_id`). */
  predicate UniqueKeys<T(==,!new)>(s: seq<T>, key: T -> string)
  {
    forall i, j :: 0 <= i < j < |s| ==> key(s[i]) != key(s[j])
  }

  /** No element has key `v`. */
  predicate KeyFree<T(==,!new)>(s: seq<T>, key: T -> string, v: string)
  {
    forall x :: x in s ==> key(x) != v
  }

  lemma UniqueKeysAppend<T(!new)>(s: seq<T>, key: T -> string, x: T)
    requires UniqueKeys(s, key) && KeyFree(s, key, key(x))
    ensures UniqueKeys(s + [x], key)
  {
  }

  /** With unique keys, the only element with key `v` is the first one. */
  lemma UniqueKeysFind<T(!new)>(s: seq<T>, key: T -> string, i: nat)
    requires UniqueKeys(s, key) && i < |s|
    ensures FindByKey(s, key, key(s[i])) == Some(s[i])
  {
  }

  /**
   * `ReplaceOne(x => x.Id == e.Id, e)`: the first element with `e`'s key
   * becomes `e`; nothing else changes.
   */
  function ReplaceByKey<T(==,!new)>(s: seq<T>, key: T -> string, e: T): (r: seq<T>)
    ensures |r| == |s|
    ensures forall j :: 0 <= j < |s| ==> key(r[j]) == key(s[j])
    ensures forall j :: 0 <= j < |s| && r[j] != s[j] ==>
      r[j] == e && forall k :: 0 <= k < j ==> key(s[k]) != key(e)
    ensures !KeyFree(s, key, key(e)) ==> e in r
    ensures KeyFree(s, key, key(e)) ==> r == s
    ensures UniqueKeys(s, key) ==> UniqueKeys(r, key)
  {
    match IndexOfKey(s, key, key(e))
    case None => s
    case Some(i) => s[i := e]
  }

  /**
   * With unique keys, after replacing a stored element by `e` the lookup of
   * `e`'s key finds `e`, and every element with another key is still there.
   */
  lemma ReplaceByKeyFind<T(!new)>(s: seq<T>, key: T -> string, e: T)
    requires UniqueKeys(s, key) && !KeyFree(s, key, key(e))
    ensures FindByKey(ReplaceByKey(s, key, e), key, key(e)) == Some(e)
    ensures forall x :: x in s && key(x) != key(e) ==> x in ReplaceByKey(s, key, e)
  {
    var r := ReplaceByKey(s, key, e);
    var i :| 0 <= i < |r| && r[i] == e;
    UniqueKeysFind(r, key, i);
    forall x | x in s && key(x) != key(e)
      ensures x in r
    {
      var j :| 0 <= j < |s| && s[j] == x;
      assert key(r[j]) == key(x);
    }
  }

  /** Replacing the element just appended (its key new to `s`) rewrites that last element only. */
  lemma ReplaceByKeyLast<T(!new)>(s: seq<T>, key: T -> string, x: T, e: T)
    requires KeyFree(s, key, key(x)) && key(e) == key(x)
    ensures ReplaceByKey(s + [x], key, e) == s + [e]
  {
    var t := s + [x];
    var r := ReplaceByKey(t, key, e);
    assert t[|s|] == x;
    assert forall j :: 0 <= j < |s| ==> t[j] == s[j] && s[j] in s;
    assert e in r;
    assert r[|s|] == e;
  }

  /** `DeleteOne(x => x.Id == v)`: the first element with key `v` is removed. */
  function DeleteByKey<T(==,!new)>(s: seq<T>, key: T -> string, v: string): (r: seq<T>)
    ensures KeyFree(s, key, v) ==> r == s
    ensures !KeyFree(s, key, v) ==> |r| == |s| - 1
    ensures multiset(r) <= multiset(s)
    ensures forall x :: x in s && key(x) != v ==> x in r
    ensures UniqueKeys(s, key) ==> UniqueKeys(r, key) && KeyFree(r, key, v)
    ensures !KeyFree(s, key, v) ==>
      exists i :: 0 <= i < |s| && key(s[i]) == v && (forall k :: 0 <= k < i ==> key(s[k]) != v) &&
        r == s[..i] + s[i+1..]
  {
    match IndexOfKey(s, key, v)
    case None => s
    case Some(i) =>
      RemoveFirstKey(s, key, v, i);
      s[..i] + s[i+1..]
  }

  /** Removing the element at `i`, the first one with key `v`. */
  lemma RemoveFirstKey<T(!new)>(s: seq<T>, key: T -> string, v: string, i: nat)
    requires i < |s| && key(s[i]) == v && forall k :: 0 <= k < i ==> key(s[k]) != v
    ensures var r := s[..i] + s[i+1..];
      |r| == |s| - 1 && multiset(r) <= multiset(s) &&
      (forall x :: x in s && key(x) != v ==> x in r) &&
      (UniqueKeys(s, key) ==> UniqueKeys(r, key) && KeyFree(r, key, v))
  {
    RemoveAtKeeps(s, key, v, i);
    if UniqueKeys(s, key) {
      RemoveAtUnique(s, key, i);
    }
  }

  lemma RemoveAtKeeps<T(!new)>(s: seq<T>, key: T -> string, v: string, i: nat)
    requires i < |s| && key(s[i]) == v
    ensures var r := s[..i] + s[i+1..];
      |r| == |s| - 1 && multiset(r) <= multiset(s) &&
      (forall x :: x in s && key(x) != v ==> x in r)
  {
    var r := s[..i] + s[i+1..];
    assert s == s[..i] + [s[i]] + s[i+1..];
    assert multiset(s) == multiset(r) + multiset{s[i]};
    forall x | x in s && key(x) != v
      ensures x in r
    {
      assert x in multiset(s);
    }
  }

  lemma RemoveAtUnique<T(!new)>(s: seq<T>, key: T -> string, i: nat)
    requires i < |s| && UniqueKeys(s, key)
    ensures UniqueKeys(s[..i] + s[i+1..], key) && KeyFree(s[..i] + s[i+1..], key, key(s[i]))
  {
    var r := s[..i] + s[i+1..];
    assert forall j :: 0 <= j < |r| ==> r[j] == s[if j < i then j else j + 1];
  }

  // ------------------------------------------------------------- Map

  /** `f` applied to every element, in order. */
  function Map<T(==,!new), U(==)>(s: seq<T>, f: T -> U): (r: seq<U>)
    ensures |r| == |s|
    ensures forall i :: 0 <= i < |s| ==> r[i] == f(s[i])
  {
    if s == [] then [] else [f(s[0])] + Map(s[1..], f)
  }

  lemma MapConcat<T(!new), U>(a: seq<T>, b: seq<T>, f: T -> U)
    ensures Map(a + b, f) == Map(a, f) + Map(b, f)
  {
    assert forall i :: 0 <= i < |a + b| ==> Map(a + b, f)[i] == (Map(a, f) + Map(b, f))[i];
  }

  /** Mapping a permutation gives a permutation. */
  lemma {:induction false} MapPerm<T(!new), U>(a: seq<T>, b: seq<T>, f: T -> U)
    requires multiset(a) == multiset(b)
    ensures multiset(Map(a, f)) == multiset(Map(b, f))
    decreases |a|
  {
    if a == [] {
      assert |b| == |multiset(b)| == 0;
    } else {
      var x := a[0];
      assert x in multiset(b);
      var k :| 0 <= k < |b| && b[k] == x;
      var rest := b[..k] + b[k+1..];
      assert b == b[..k] + [x] + b[k+1..];
      assert a == [x] + a[1..];
      assert multiset(b) == multiset(b[..k]) + multiset{x} + multiset(b[k+1..]);
      assert multiset(a) == multiset{x} + multiset(a[1..]);
      assert multiset(rest) == multiset(b[..k]) + multiset(b[k+1..]);
      assert multiset(rest) == multiset(b) - multiset{x};
      assert multiset(a[1..]) == multiset(a) - multiset{x};
      MapPerm(a[1..], rest, f);
      MapConcat(b[..k] + [x], b[k+1..], f);
      MapConcat(b[..k], [x], f);
      MapConcat(b[..k], b[k+1..], f);
      assert Map(a, f) == [f(x)] + Map(a[1..], f);
    }
  }

  /** Filtering after a map that keeps what the filter looks at. */
  lemma {:induction false} FilterMap<T(!new)>(s: seq<T>, f: T -> T, p: T -> bool)
    requires forall x :: p(f(x)) == p(x)
    ensures Filter(Map(s, f), p) == Map(Filter(s, p), f)
  {
    if s != [] {
      FilterMap(s[1..], f, p);
      assert Map(s, f)[1..] == Map(s[1..], f);
      if p(s[0]) {
        assert Filter(s, p) == [s[0]] + Filter(s[1..], p);
      }
    }
  }

  // ------------------------------------------------------------- Sum

  /** The sum of `v` over `s`. */
  function SumBy<T(==,!new)>(s: seq<T>, v: T -> real): real
  {
    if s == [] then 0.0 else v(s[0]) + SumBy(s[1..], v)
  }

  lemma {:induction false} SumByConcat<T(!new)>(a: seq<T>, b: seq<T>, v: T -> real)
    ensures SumBy(a + b, v) == SumBy(a, v) + SumBy(b, v)
  {
    if a == [] {
      assert a + b == b;
    } else {
      assert (a + b)[1..] == a[1..] + b;
      SumByConcat(a[1..], b, v);
    }
  }

  /** A sum does not depend on the order of the terms. */
  lemma {:induction false} SumByPerm<T(!new)>(a: seq<T>, b: seq<T>, v: T -> real)
    requires multiset(a) == multiset(b)
    ensures SumBy(a, v) == SumBy(b, v)
    decreases |a|
  {
    if a == [] {
      assert |b| == |multiset(b)| == 0;
    } else {
      var x := a[0];
      assert x in multiset(b);
      var k :| 0 <= k < |b| && b[k] == x;
      var rest := b[..k] + b[k+1..];
      assert b == b[..k] + ([x] + b[k+1..]);
      assert a == [x] + a[1..];
      assert multiset(b) == multiset(b[..k]) + multiset{x} + multiset(b[k+1..]);
      assert multiset(a) == multiset{x} + multiset(a[1..]);
      assert multiset(rest) == multiset(b[..k]) + multiset(b[k+1..]);
      assert multiset(rest) == multiset(b) - multiset{x};
      assert multiset(a[1..]) == multiset(a) - multiset{x};
      SumByPerm(a[1..], rest, v);
      SumByConcat(b[..k], [x] + b[k+1..], v);
      SumByConcat(b[..k], b[k+1..], v);
      assert SumBy([x] + b[k+1..], v) == v(x) + SumBy(b[k+1..], v);
    }
  }

  /** A sum is unchanged by a map that keeps every term. */
  lemma {:induction false} SumByMap<T(!new)>(s: seq<T>, f: T -> T, v: T -> real)
    requires forall x :: v(f(x)) == v(x)
    ensures SumBy(Map(s, f), v) == SumBy(s, v)
  {
    if s != [] {
      SumByMap(s[1..], f, v);
      assert Map(s, f)[1..] == Map(s[1..], f);
    }
  }

  // ------------------------------------------------------------- Sort

  /** Newest first: no element is later than one before it. */
  predicate SortedDesc<T(==,!new)>(s: seq<T>, key: T -> DateTime)
  {
    forall i, j :: 0 <= i < j < |s| ==> NotAfter(key(s[j]), key(s[i]))
  }

  function Insert<T(==,!new)>(x: T, s: seq<T>, key: T -> DateTime): (r: seq<T>)
    requires SortedDesc(s, key)
    ensures SortedDesc(r, key)
    ensures multiset(r) == multiset(s) + multiset{x}
  {
    if s == [] then [x]
    else if NotAfter(key(s[0]), key(x)) then
      assert forall j :: 0 <= j < |s| ==> NotAfter(key(s[j]), key(x));
      [x] + s
    else
      var tail := Insert(x, s[1..], key);
      assert s == [s[0]] + s[1..];
      assert forall y :: y in tail ==> NotAfter(key(y), key(s[0])) by {
        forall y | y in tail
          ensures NotAfter(key(y), key(s[0]))
        {
          assert y in multiset(tail);
          if y != x {
            assert y in multiset(s[1..]);
            var j :| 0 <= j < |s[1..]| && s[1..][j] == y;
            assert s[j + 1] == y;
          }
        }
      }
      var r := [s[0]] + tail;
      assert forall j :: 0 < j < |r| ==> r[j] in tail;
      r
  }

  /**
   * `SortByDescending(key)`: a permutation of `s`, newest first. The order
   * among equal keys is left open, as a MongoDB sort is not stable.
   */
  function SortDesc<T(==,!new)>(s: seq<T>, key: T -> DateTime): (r: seq<T>)
    ensures SortedDesc(r, key)
    ensures multiset(r) == multiset(s)
  {
    if s == [] then []
    else
      assert s == [s[0]] + s[1..];
      Insert(s[0], SortDesc(s[1..], key), key)
  }

  /** A map that keeps the sort key keeps a list sorted. */
  lemma SortedMap<T(!new)>(s: seq<T>, f: T -> T, key: T -> DateTime)
    requires forall x :: key(f(x)) == key(x)
    requires SortedDesc(s, key)
    ensures SortedDesc(Map(s, f), key)
  {
  }

  /** Filtering keeps the order, so a list sorted newest first stays so. */
  lemma {:induction false} FilterSorted<T(!new)>(s: seq<T>, p: T -> bool, key: T -> DateTime)
    requires SortedDesc(s, key)
    ensures SortedDesc(Filter(s, p), key)
  {
    if s != [] {
      assert SortedDesc(s[1..], key);
      FilterSorted(s[1..], p, key);
      var tail := Filter(s[1..], p);
      if p(s[0]) {
        forall y | y in tail
          ensures NotAfter(key(y), key(s[0]))
        {
          var j :| 0 <= j < |s[1..]| && s[1..][j] == y;
          assert s[j + 1] == y;
        }
        var r := [s[0]] + tail;
        assert forall j :: 0 < j < |r| ==> r[j] in tail;
      }
    }
  }
}
