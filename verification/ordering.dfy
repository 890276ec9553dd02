/** What `Model.find(filter).sort({ createdAt: -1 })` returns: the stored
    documents that satisfy the filter, newest first. The store's own query
    engine is replaced by a filter and an insertion sort on the creation
    time; documents with equal timestamps may come out in any order. */
module Ordering {

  /** Sorted by `key`, largest first. */
  predicate NewestFirst<T>(s: seq<T>, key: T -> nat) {
    forall i, j :: 0 <= i < j < |s| ==> key(s[i]) >= key(s[j])
  }

  /** The elements of `s` satisfying `p`, in their stored order. */
  function Where<T(!new)>(s: seq<T>, p: T -> bool): (r: seq<T>)
    ensures forall x :: x in r <==> x in s && p(x)
    ensures forall x :: multiset(r)[x] == if p(x) then multiset(s)[x] else 0
  {
    if s == [] then []
    else
      assert s == [s[0]] + s[1..];
      if p(s[0]) then [s[0]] + Where(s[1..], p) else Where(s[1..], p)
  }

  /** A newest-first list stays newest first under a head no older than
      any of its elements. */
  lemma ConsNewestFirst<T>(h: T, t: seq<T>, key: T -> nat)
    requires NewestFirst(t, key)
    requires forall j :: 0 <= j < |t| ==> key(t[j]) <= key(h)
    ensures NewestFirst([h] + t, key)
  {
    var r := [h] + t;
    forall i, j | 0 <= i < j < |r| ensures key(r[i]) >= key(r[j]) {
      assert r[j] == t[j - 1];
      if i > 0 {
        assert r[i] == t[i - 1];
      }
    }
  }

  /** Every element of a list holding `x` and the elements of `s` is bounded
      by a bound on both. */
  lemma MembersBounded<T>(r: seq<T>, x: T, s: seq<T>, key: T -> nat, b: nat)
    requires multiset(r) == multiset(s) + multiset{x}
    requires key(x) <= b && forall j :: 0 <= j < |s| ==> key(s[j]) <= b
    ensures forall j :: 0 <= j < |r| ==> key(r[j]) <= b
  {
    forall j | 0 <= j < |r| ensures key(r[j]) <= b {
      var y := r[j];
      assert y in multiset(r);
      if y != x {
        assert y in multiset(s);
        var k :| 0 <= k < |s| && s[k] == y;
      }
    }
  }

  /** Places `x` in front of the first element that is not newer. */
  function Insert<T(!new)>(x: T, s: seq<T>, key: T -> nat): (r: seq<T>)
    requires NewestFirst(s, key)
    ensures NewestFirst(r, key)
    ensures multiset(r) == multiset(s) + multiset{x}
  {
    if s == [] || key(x) >= key(s[0]) then
      ConsNewestFirst(x, s, key);
      [x] + s
    else
      var t := s[1..];
      assert s == [s[0]] + t;
      var rest := Insert(x, t, key);
      MembersBounded(rest, x, t, key, key(s[0]));
      ConsNewestFirst(s[0], rest, key);
      [s[0]] + rest
  }

  /** The same documents, newest first. */
  function SortNewestFirst<T(!new)>(s: seq<T>, key: T -> nat): (r: seq<T>)
    ensures NewestFirst(r, key)
    ensures multiset(r) == multiset(s)
  {
    if s == [] then []
    else
      assert s == [s[0]] + s[1..];
      Insert(s[0], SortNewestFirst(s[1..], key), key)
  }

  /** A sorted query result holds exactly the matching documents. */
  lemma SortedQueryMembers<T(!new)>(s: seq<T>, p: T -> bool, key: T -> nat, x: T)
    ensures x in SortNewestFirst(Where(s, p), key) <==> x in s && p(x)
  {
    var w := Where(s, p);
    assert x in SortNewestFirst(w, key) <==> x in multiset(SortNewestFirst(w, key));
    assert x in w <==> x in multiset(w);
  }
}
