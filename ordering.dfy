/**
 * Ordering batch ids by an integer key with the id as tie-break: the
 * "ORDER BY processing_date, created_at" of the scheduler and the stable
 * "sortBy('total_claims')" of the rebalancer (ids grow with creation time).
 */
module Ordering {

  /** a comes strictly before b: smaller key, or equal key and smaller id. */
  predicate Before(key: map<nat, int>, a: nat, b: nat)
    requires a in key && b in key
  {
    key[a] < key[b] || (key[a] == key[b] && a < b)
  }

  predicate Keyed(q: seq<nat>, key: map<nat, int>)
  {
    forall i | 0 <= i < |q| :: q[i] in key
  }

  predicate SortedBy(q: seq<nat>, key: map<nat, int>)
  {
    Keyed(q, key) && forall i, j | 0 <= i < j < |q| :: Before(key, q[i], q[j])
  }

  /** No id occurs twice in q. */
  predicate Distinct(q: seq<nat>)
  {
    forall i, j | 0 <= i < j < |q| :: q[i] != q[j]
  }

  /** A sorted sequence holds no id twice. */
  lemma SortedDistinct(q: seq<nat>, key: map<nat, int>)
    requires SortedBy(q, key)
    ensures forall i, j | 0 <= i < j < |q| :: q[i] != q[j]
  {
  }

  function Insert(q: seq<nat>, x: nat, key: map<nat, int>): (r: seq<nat>)
    requires x in key && Keyed(q, key)
    ensures |r| == |q| + 1
    ensures forall y :: y in r <==> y in q || y == x
    ensures Keyed(r, key)
  {
    if q == [] then [x]
    else if Before(key, x, q[0]) then [x] + q
    else [q[0]] + Insert(q[1..], x, key)
  }

  lemma {:induction false} InsertSorted(q: seq<nat>, x: nat, key: map<nat, int>)
    requires SortedBy(q, key) && x in key && x !in q
    ensures SortedBy(Insert(q, x, key), key)
  {
    if q != [] && !Before(key, x, q[0]) {
      InsertSorted(q[1..], x, key);
      var r := Insert(q, x, key);
      var t := Insert(q[1..], x, key);
      assert r == [q[0]] + t;
      forall i, j | 0 <= i < j < |r| ensures Before(key, r[i], r[j]) {
        if i == 0 {
          assert r[j] in t;
          assert r[j] == x || r[j] in q[1..];
        }
      }
    }
  }

  /** The ids of s in ascending (key, id) order, as a value. */
  ghost function Ordered(s: set<nat>, key: map<nat, int>): (q: seq<nat>)
    requires s <= key.Keys
    ensures SortedBy(q, key)
    ensures forall y :: y in q <==> y in s
    ensures |q| == |s|
    decreases s
  {
    if s == {} then []
    else
      var x :| x in s;
      var rest := Ordered(s - {x}, key);
      InsertSorted(rest, x, key);
      Insert(rest, x, key)
  }

  /** The head of a sorted sequence comes before every other element. */
  lemma HeadLeast(q: seq<nat>, key: map<nat, int>)
    requires SortedBy(q, key) && q != []
    ensures forall y | y in q :: y == q[0] || Before(key, q[0], y)
  {
  }

  /** A set has exactly one ascending arrangement. */
  lemma {:induction false} SortedUnique(p: seq<nat>, q: seq<nat>, key: map<nat, int>)
    requires SortedBy(p, key) && SortedBy(q, key)
    requires forall y :: y in p <==> y in q
    ensures p == q
  {
    assert p != [] ==> p[0] in q;
    assert q != [] ==> q[0] in p;
    if p != [] {
      HeadLeast(p, key);
      HeadLeast(q, key);
      assert p[0] == q[0];
      SortedDistinct(p, key);
      SortedDistinct(q, key);
      assert p == [p[0]] + p[1..];
      assert q == [q[0]] + q[1..];
      forall y ensures y in p[1..] <==> y in q[1..] {
        if y in p[1..] {
          var i :| 0 <= i < |p| - 1 && p[1..][i] == y;
          assert p[i + 1] == y && y != p[0];
          assert y in p;
          assert y in q;
          var k :| 0 <= k < |q| && q[k] == y;
          assert k != 0;
          assert q[1..][k - 1] == y;
        }
        if y in q[1..] {
          var i :| 0 <= i < |q| - 1 && q[1..][i] == y;
          assert q[i + 1] == y && y != q[0];
          assert y in q;
          assert y in p;
          var k :| 0 <= k < |p| && p[k] == y;
          assert k != 0;
          assert p[1..][k - 1] == y;
        }
      }
      SortedUnique(p[1..], q[1..], key);
    }
  }

  /** The ids of s in ascending (key, id) order. */
  method SortByKey(s: set<nat>, key: map<nat, int>) returns (q: seq<nat>)
    requires s <= key.Keys
    ensures q == Ordered(s, key)
  {
    q := [];
    var rest := s;
    while rest != {}
      invariant rest <= s
      invariant SortedBy(q, key)
      invariant forall y :: y in q <==> y in s - rest
      invariant |q| + |rest| == |s|
      decreases rest
    {
      var x :| x in rest;
      InsertSorted(q, x, key);
      q := Insert(q, x, key);
      rest := rest - {x};
    }
    SortedUnique(q, Ordered(s, key), key);
  }
}
