/** The queryset operations the views use, over sequences of rows: filter, first match,
    order_by on one integer column, and slicing. */
module Sequences {
  import opened Base

  /** The rows of `s` that satisfy `keep`, in table order. */
  function Kept<T>(s: seq<T>, keep: T -> bool): seq<T>
  {
    if s == [] then [] else (if keep(s[0]) then [s[0]] else []) + Kept(s[1..], keep)
  }

  /** Kept rows of a front part come before the kept rows of the rest. */
  lemma {:induction false} KeptConcat<T>(a: seq<T>, b: seq<T>, keep: T -> bool)
    ensures Kept(a + b, keep) == Kept(a, keep) + Kept(b, keep)
  {
    if a == [] {
      assert a + b == b;
    } else {
      assert (a + b)[0] == a[0] && (a + b)[1..] == a[1..] + b;
      KeptConcat(a[1..], b, keep);
    }
  }

  lemma {:induction false} KeptRows<T(!new)>(s: seq<T>, keep: T -> bool)
    ensures |Kept(s, keep)| <= |s|
    ensures forall i :: 0 <= i < |Kept(s, keep)| ==> keep(Kept(s, keep)[i])
    ensures forall x :: multiset(Kept(s, keep))[x] == if keep(x) then multiset(s)[x] else 0
  {
    if s != [] {
      assert s == [s[0]] + s[1..];
      KeptRows(s[1..], keep);
    }
  }

  /** `queryset.filter(...)`: the rows that satisfy `keep`, each as often as stored, in table order. */
  function Filter<T(==,!new)>(s: seq<T>, keep: T -> bool): (r: seq<T>)
    ensures |r| <= |s|
    ensures forall i :: 0 <= i < |r| ==> keep(r[i])
    ensures forall x :: multiset(r)[x] == if keep(x) then multiset(s)[x] else 0
    ensures forall x :: x in r <==> x in s && keep(x)
  {
    KeptRows(s, keep);
    var r := Kept(s, keep);
    assert forall x :: x in r <==> x in multiset(r);
    r
  }

  /** Filtering keeps table order: the rows kept from a front part come before the
      rows kept from the rest. */
  lemma FilterConcat<T(!new)>(a: seq<T>, b: seq<T>, keep: T -> bool)
    ensures Filter(a + b, keep) == Filter(a, keep) + Filter(b, keep)
  {
    KeptConcat(a, b, keep);
  }

  /** Two filters that agree on every row select the same rows. */
  lemma {:induction false} FilterAgrees<T(!new)>(s: seq<T>, p: T -> bool, q: T -> bool)
    requires forall x :: p(x) == q(x)
    ensures Filter(s, p) == Filter(s, q)
  {
    if s != [] {
      FilterAgrees(s[1..], p, q);
    }
  }

  /** The index of the first row satisfying `matches`, if any. */
  function FindIndex<T>(s: seq<T>, matches: T -> bool): (r: Option<nat>)
    ensures r.Some? ==> r.value < |s| && matches(s[r.value])
    ensures r.Some? ==> forall k :: 0 <= k < r.value ==> !matches(s[k])
    ensures r.None? ==> forall k :: 0 <= k < |s| ==> !matches(s[k])
  {
    if s == [] then None
    else if matches(s[0]) then Some(0)
    else match FindIndex(s[1..], matches)
      case None => None
      case Some(k) => Some(k + 1)
  }

  predicate SortedBy<T>(s: seq<T>, key: T -> int)
  {
    forall i, j :: 0 <= i < j < |s| ==> key(s[i]) <= key(s[j])
  }

  function InsertBy<T(==,!new)>(x: T, s: seq<T>, key: T -> int): (r: seq<T>)
    ensures |r| == |s| + 1
    ensures multiset(r) == multiset(s) + multiset{x}
  {
    if s == [] then [x]
    else if key(x) <= key(s[0]) then [x] + s
    else
      assert s == [s[0]] + s[1..];
      [s[0]] + InsertBy(x, s[1..], key)
  }

  /** Inserting a row whose key is at least `b` into rows whose keys are at least `b`. */
  lemma {:induction false} InsertByBounded<T(!new)>(x: T, s: seq<T>, key: T -> int, b: int)
    requires key(x) >= b && forall k :: 0 <= k < |s| ==> key(s[k]) >= b
    ensures forall k :: 0 <= k < |InsertBy(x, s, key)| ==> key(InsertBy(x, s, key)[k]) >= b
  {
    if s != [] && key(x) > key(s[0]) {
      InsertByBounded(x, s[1..], key, b);
    }
  }

  lemma {:induction false} InsertBySorted<T(!new)>(x: T, s: seq<T>, key: T -> int)
    requires SortedBy(s, key)
    ensures SortedBy(InsertBy(x, s, key), key)
  {
    if s != [] && key(x) > key(s[0]) {
      InsertBySorted(x, s[1..], key);
      InsertByBounded(x, s[1..], key, key(s[0]));
    }
  }

  /** `queryset.order_by(key)`: an ascending permutation of the rows (insertion sort;
      rows with equal keys keep their table order). */
  function SortBy<T(==,!new)>(s: seq<T>, key: T -> int): (r: seq<T>)
    ensures |r| == |s|
    ensures multiset(r) == multiset(s)
    ensures forall x :: x in r <==> x in s
    ensures SortedBy(r, key)
  {
    if s == [] then []
    else
      assert s == [s[0]] + s[1..];
      var sorted := SortBy(s[1..], key);
      InsertBySorted(s[0], sorted, key);
      var r := InsertBy(s[0], sorted, key);
      assert forall x :: x in r <==> x in multiset(r);
      r
  }

  /** `queryset[:n]`. */
  function Take<T>(s: seq<T>, n: nat): (r: seq<T>)
    ensures |r| == Min(n, |s|) && r == s[..|r|]
  {
    if |s| <= n then s else s[..n]
  }
}
