// `WHERE` and `ORDER BY` on table rows: an order-keeping filter and a stable
// sort by one integer column.

module Ordering {

  predicate OrderedBy<T>(s: seq<T>, key: T -> int) {
    forall i, j :: 0 <= i < j < |s| ==> key(s[i]) <= key(s[j])
  }

  function InsertBy<T(==)>(x: T, s: seq<T>, key: T -> int): (r: seq<T>)
    requires OrderedBy(s, key)
    ensures OrderedBy(r, key)
    ensures multiset(r) == multiset(s) + multiset{x}
    ensures r[0] == x || (s != [] && r[0] == s[0])
  {
    if s == [] || key(x) <= key(s[0]) then
      ConsOrdered(x, s, key);
      [x] + s
    else
      assert s == [s[0]] + s[1..];
      assert OrderedBy(s[1..], key);
      var t := InsertBy(x, s[1..], key);
      ConsOrdered(s[0], t, key);
      [s[0]] + t
  }

  /** Putting a row no greater than the head in front keeps a listing ordered. */
  lemma ConsOrdered<T>(h: T, t: seq<T>, key: T -> int)
    requires OrderedBy(t, key) && (t != [] ==> key(h) <= key(t[0]))
    ensures OrderedBy([h] + t, key)
  {
    var r := [h] + t;
    forall i, j | 0 <= i < j < |r| ensures key(r[i]) <= key(r[j]) {
      if i > 0 {
        assert r[i] == t[i - 1] && r[j] == t[j - 1];
      } else {
        assert r[j] == t[j - 1];
      }
    }
  }

  /** The rows ordered by `key`; rows with equal keys keep their relative order. */
  function SortBy<T(==)>(s: seq<T>, key: T -> int): (r: seq<T>)
    ensures OrderedBy(r, key)
    ensures multiset(r) == multiset(s)
  {
    if s == [] then []
    else
      assert s == [s[0]] + s[1..];
      InsertBy(s[0], SortBy(s[1..], key), key)
  }

  /** The rows satisfying `p`, in their order. */
  function Where<T>(s: seq<T>, p: T -> bool): seq<T> {
    if s == [] then [] else (if p(s[0]) then [s[0]] else []) + Where(s[1..], p)
  }

  /** The filter keeps a row exactly when it satisfies `p`. */
  lemma {:induction false} WhereMember<T>(s: seq<T>, p: T -> bool, x: T)
    ensures x in Where(s, p) <==> x in s && p(x)
    decreases |s|
  {
    if s != [] {
      WhereMember(s[1..], p, x);
      assert s == [s[0]] + s[1..];
    }
  }

  lemma WhereMembers<T>(s: seq<T>, p: T -> bool)
    ensures forall x :: x in Where(s, p) <==> x in s && p(x)
  {
    forall x ensures x in Where(s, p) <==> x in s && p(x) {
      WhereMember(s, p, x);
    }
  }

  /** The filter keeps an ordered listing ordered. */
  lemma {:induction false} WhereOrdered<T>(s: seq<T>, p: T -> bool, key: T -> int)
    requires OrderedBy(s, key)
    ensures OrderedBy(Where(s, p), key)
    decreases |s|
  {
    if s != [] {
      WhereOrdered(s[1..], p, key);
      var t := s[1..];
      var rest := Where(t, p);
      forall y | y in rest ensures key(s[0]) <= key(y) {
        WhereMember(t, p, y);
        var k :| 0 <= k < |t| && t[k] == y;
        assert s[k + 1] == y;
      }
      assert forall j :: 0 <= j < |rest| ==> rest[j] in rest;
    }
  }
}
