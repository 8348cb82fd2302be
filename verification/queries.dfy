/** What ORDER BY means: the one enumeration of a set of ids that is sorted by a key, ties broken by id. */
module Queries {
  import opened Sums
  import opened Orders

  predicate Precedes(key: Uuid -> Time, a: Uuid, b: Uuid) {
    key(a) < key(b) || (key(a) == key(b) && a < b)
  }

  predicate SortedBy(key: Uuid -> Time, s: seq<Uuid>) {
    forall i, j :: 0 <= i < j < |s| ==> Precedes(key, s[i], s[j])
  }

  ghost predicate IsLeast(key: Uuid -> Time, ids: set<Uuid>, m: Uuid) {
    m in ids && forall x :: x in ids ==> x == m || Precedes(key, m, x)
  }

  lemma {:induction false} LeastExists(key: Uuid -> Time, ids: set<Uuid>)
    requires ids != {}
    ensures exists m :: IsLeast(key, ids, m)
  {
    var x :| x in ids;
    if ids == {x} {
      assert IsLeast(key, ids, x);
    } else {
      LeastExists(key, ids - {x});
      var m :| IsLeast(key, ids - {x}, m);
      assert forall y :: y in ids ==> y == x || y in ids - {x};
      if Precedes(key, m, x) {
        assert IsLeast(key, ids, m);
      } else {
        assert IsLeast(key, ids, x);
      }
    }
  }

  /** SELECT id ... ORDER BY key(id) ASC, id ASC */
  function OrderBy(key: Uuid -> Time, ids: set<Uuid>): (r: seq<Uuid>)
    ensures SortedBy(key, r)
    ensures forall x :: x in r <==> x in ids
    decreases |ids|
  {
    if ids == {} then []
    else
      LeastExists(key, ids);
      var m :| m in ids && forall x :: x in ids ==> x == m || Precedes(key, m, x);
      [m] + OrderBy(key, ids - {m})
  }

  lemma SortedIsDistinct(key: Uuid -> Time, s: seq<Uuid>)
    requires SortedBy(key, s)
    ensures Distinct(s)
  {
    forall i, j | 0 <= i < j < |s|
      ensures s[i] != s[j]
    {
      assert Precedes(key, s[i], s[j]);
    }
  }

  /** There is only one sorted enumeration. */
  lemma {:induction false} SortedIsUnique(key: Uuid -> Time, a: seq<Uuid>, b: seq<Uuid>)
    requires SortedBy(key, a) && SortedBy(key, b)
    requires forall x :: x in a <==> x in b
    ensures a == b
  {
    if a != [] {
      assert a[0] in b;
    }
    if b != [] {
      assert b[0] in a;
      assert a[0] == b[0];
      var s, t := a[1..], b[1..];
      SortedIsDistinct(key, a);
      SortedIsDistinct(key, b);
      forall x
        ensures x in s <==> x in t
      {
        assert x in s <==> x in a && x != a[0] by {
          assert a == [a[0]] + s;
        }
        assert x in t <==> x in b && x != b[0] by {
          assert b == [b[0]] + t;
        }
      }
      SortedIsUnique(key, s, t);
    }
  }

  /** The elements of s that pass, in order. */
  function Filter(p: Uuid -> bool, s: seq<Uuid>): (r: seq<Uuid>)
    ensures forall x :: x in r <==> x in s && p(x)
  {
    if s == [] then []
    else
      var r := Filter(p, s[..|s| - 1]);
      assert s == s[..|s| - 1] + [s[|s| - 1]];
      if p(s[|s| - 1]) then r + [s[|s| - 1]] else r
  }

  lemma {:induction false} FilterKeepsOrder(key: Uuid -> Time, p: Uuid -> bool, s: seq<Uuid>)
    requires SortedBy(key, s)
    ensures SortedBy(key, Filter(p, s))
  {
    if s != [] {
      FilterKeepsOrder(key, p, s[..|s| - 1]);
      var r := Filter(p, s[..|s| - 1]);
      forall i | 0 <= i < |r|
        ensures Precedes(key, r[i], s[|s| - 1])
      {
        assert r[i] in s[..|s| - 1];
      }
    }
  }
}
