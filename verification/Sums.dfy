/** Sums over the values of a map and over a multiset: the aggregates that the books and ledgers of
    this project are compared with. Both are defined by picking elements in any order; the lemmas
    say that the order does not matter. */
module Sums {

  ghost function MapSum<K, V>(m: map<K, V>, f: V -> int): int
    decreases |m|
  {
    if m == map[] then 0
    else
      var k :| k in m;
      assert m.Keys == (m - {k}).Keys + {k};
      f(m[k]) + MapSum(m - {k}, f)
  }

  lemma {:induction false} MapSumRemove<K, V>(m: map<K, V>, k: K, f: V -> int)
    requires k in m
    ensures MapSum(m, f) == f(m[k]) + MapSum(m - {k}, f)
    decreases |m|
  {
    var j :| j in m && MapSum(m, f) == f(m[j]) + MapSum(m - {j}, f);
    if j != k {
      assert m.Keys == (m - {j}).Keys + {j} && m.Keys == (m - {k}).Keys + {k};
      MapSumRemove(m - {j}, k, f);
      MapSumRemove(m - {k}, j, f);
      assert m - {j} - {k} == m - {k} - {j};
    }
  }

  /** Two maps with the same keys whose values count the same. */
  lemma {:induction false} SameMapSum<K, V, W>(a: map<K, V>, b: map<K, W>, f: V -> int, g: W -> int)
    requires a.Keys == b.Keys && forall k :: k in a ==> f(a[k]) == g(b[k])
    ensures MapSum(a, f) == MapSum(b, g)
    decreases |a|
  {
    if a != map[] {
      var k :| k in a;
      MapSumRemove(a, k, f);
      MapSumRemove(b, k, g);
      assert a.Keys == (a - {k}).Keys + {k};
      assert (a - {k}).Keys == (b - {k}).Keys;
      SameMapSum(a - {k}, b - {k}, f, g);
    } else {
      assert b == map[];
    }
  }

  lemma {:induction false} MapSumUpdate<K, V>(m: map<K, V>, k: K, v: V, f: V -> int)
    ensures MapSum(m[k := v], f) == MapSum(m - {k}, f) + f(v)
    ensures MapSum(m, f) == MapSum(m - {k}, f) + if k in m then f(m[k]) else 0
  {
    MapSumRemove(m[k := v], k, f);
    assert m[k := v] - {k} == m - {k};
    if k in m {
      MapSumRemove(m, k, f);
    } else {
      assert m - {k} == m;
    }
  }

  lemma {:induction false} MapSumNonNegative<K, V>(m: map<K, V>, f: V -> int)
    requires forall k :: k in m ==> f(m[k]) >= 0
    ensures MapSum(m, f) >= 0
    decreases |m|
  {
    if m != map[] {
      var k :| k in m;
      MapSumRemove(m, k, f);
      assert m.Keys == (m - {k}).Keys + {k};
      MapSumNonNegative(m - {k}, f);
    }
  }

  lemma {:induction false} MapSumZero<K, V>(m: map<K, V>, f: V -> int)
    requires forall k :: k in m ==> f(m[k]) == 0
    ensures MapSum(m, f) == 0
    decreases |m|
  {
    if m != map[] {
      var k :| k in m;
      MapSumRemove(m, k, f);
      assert m.Keys == (m - {k}).Keys + {k};
      MapSumZero(m - {k}, f);
    }
  }

  ghost function BagSum<T>(s: multiset<T>, f: T -> int): int
    decreases |s|
  {
    if s == multiset{} then 0
    else
      var x :| x in s;
      f(x) + BagSum(s - multiset{x}, f)
  }

  lemma {:induction false} BagSumRemove<T>(s: multiset<T>, x: T, f: T -> int)
    requires x in s
    ensures BagSum(s, f) == f(x) + BagSum(s - multiset{x}, f)
    decreases |s|
  {
    var y :| y in s && BagSum(s, f) == f(y) + BagSum(s - multiset{y}, f);
    if y != x {
      var withoutY, withoutX := s - multiset{y}, s - multiset{x};
      assert |withoutY| == |withoutX| == |s| - 1;
      assert x in withoutY && y in withoutX;
      assert withoutY - multiset{x} == withoutX - multiset{y};
      BagSumRemove(withoutY, x, f);
      BagSumRemove(withoutX, y, f);
    }
  }

  lemma {:induction false} BagSumUnion<T>(s: multiset<T>, t: multiset<T>, f: T -> int)
    ensures BagSum(s + t, f) == BagSum(s, f) + BagSum(t, f)
    decreases |t|
  {
    if t == multiset{} {
      assert s + t == s;
    } else {
      var x :| x in t;
      BagSumRemove(t, x, f);
      BagSumRemove(s + t, x, f);
      assert s + t - multiset{x} == s + (t - multiset{x});
      BagSumUnion(s, t - multiset{x}, f);
    }
  }

  lemma {:induction false} BagSumZero<T>(s: multiset<T>, f: T -> int)
    requires forall x :: x in s ==> f(x) == 0
    ensures BagSum(s, f) == 0
    decreases |s|
  {
    if s != multiset{} {
      var x :| x in s;
      BagSumRemove(s, x, f);
      BagSumZero(s - multiset{x}, f);
    }
  }

  lemma BagSumSingle<T>(x: T, f: T -> int)
    ensures BagSum(multiset{x}, f) == f(x)
  {
    BagSumRemove(multiset{x}, x, f);
    assert multiset{x} - multiset{x} == multiset{};
  }
}
