/** Sums over the entries of a map: the arithmetic behind every ledger of the gateway.
    A table's bag is the multiset sum of what each entry contributes, so "who holds a slot",
    "who still waits for a reply" and "which keys are in flight" become multiset equations. */
module Bags {

  ghost function MapBag<K, V, X>(m: map<K, V>, f: V -> multiset<X>): (b: multiset<X>)
    ensures m == map[] ==> b == multiset{}
  {
    if m == map[] then multiset{}
    else
      var k :| k in m;
      f(m[k]) + MapBag(m - {k}, f)
  }

  lemma {:induction false} MapBagRemove<K, V, X>(m: map<K, V>, f: V -> multiset<X>, k: K)
    requires k in m
    ensures MapBag(m, f) == f(m[k]) + MapBag(m - {k}, f)
    decreases |m|
  {
    var p :| p in m && MapBag(m, f) == f(m[p]) + MapBag(m - {p}, f);
    if p != k {
      MapBagRemove(m - {p}, f, k);
      MapBagRemove(m - {k}, f, p);
      assert m - {p} - {k} == m - {k} - {p};
    }
  }

  lemma {:induction false} MapBagUpdate<K, V, X>(m: map<K, V>, f: V -> multiset<X>, k: K, v: V)
    ensures MapBag(m[k := v], f) + (if k in m then f(m[k]) else multiset{}) == MapBag(m, f) + f(v)
  {
    MapBagRemove(m[k := v], f, k);
    assert m[k := v] - {k} == m - {k};
    if k in m {
      MapBagRemove(m, f, k);
    } else {
      assert m - {k} == m;
    }
  }

  /** MapBagUpdate, one element at a time. */
  lemma MapBagUpdateAt<K, V, X>(m: map<K, V>, f: V -> multiset<X>, k: K, v: V)
    ensures forall x :: MapBag(m[k := v], f)[x] + (if k in m then f(m[k])[x] else 0)
                     == MapBag(m, f)[x] + f(v)[x]
  {
    MapBagUpdate(m, f, k, v);
    forall x
      ensures MapBag(m[k := v], f)[x] + (if k in m then f(m[k])[x] else 0) == MapBag(m, f)[x] + f(v)[x]
    {
      if k in m {
        assert (MapBag(m[k := v], f) + f(m[k]))[x] == (MapBag(m, f) + f(v))[x];
      } else {
        assert (MapBag(m[k := v], f) + multiset{})[x] == (MapBag(m, f) + f(v))[x];
      }
    }
  }

  lemma MapBagRemoveAt<K, V, X>(m: map<K, V>, f: V -> multiset<X>, k: K)
    requires k in m
    ensures forall x :: MapBag(m - {k}, f)[x] + f(m[k])[x] == MapBag(m, f)[x]
  {
    MapBagRemove(m, f, k);
  }

  /** Membership in a bag comes from an entry, and every entry is part of the bag. */
  lemma {:induction false} MapBagMember<K, V, X>(m: map<K, V>, f: V -> multiset<X>, x: X)
    ensures x in MapBag(m, f) <==> exists k :: k in m && x in f(m[k])
    decreases |m|
  {
    if m != map[] {
      var p :| p in m && MapBag(m, f) == f(m[p]) + MapBag(m - {p}, f);
      MapBagMember(m - {p}, f, x);
      if k :| k in m && x in f(m[k]) {
        if k != p { assert k in m - {p} && x in f((m - {p})[k]); }
      }
    }
  }

  /** When every entry contributes exactly one element the bag is as large as the table. */
  lemma {:induction false} MapBagSize<K, V, X>(m: map<K, V>, f: V -> multiset<X>)
    requires forall k :: k in m ==> |f(m[k])| == 1
    ensures |MapBag(m, f)| == |m|
    decreases |m|
  {
    if m != map[] {
      var p :| p in m && MapBag(m, f) == f(m[p]) + MapBag(m - {p}, f);
      MapBagSize(m - {p}, f);
    }
  }

  ghost function SumValues<K>(m: map<K, int>): int
  {
    if m == map[] then 0
    else
      var k :| k in m;
      m[k] + SumValues(m - {k})
  }

  lemma {:induction false} SumValuesRemove<K>(m: map<K, int>, k: K)
    requires k in m
    ensures SumValues(m) == m[k] + SumValues(m - {k})
    decreases |m|
  {
    var p :| p in m && SumValues(m) == m[p] + SumValues(m - {p});
    if p != k {
      SumValuesRemove(m - {p}, k);
      SumValuesRemove(m - {k}, p);
      assert m - {p} - {k} == m - {k} - {p};
    }
  }

  /** A counter table that agrees pointwise with a bag sums to the size of the bag. */
  lemma {:induction false} SumIsSize<K>(m: map<K, int>, b: multiset<K>)
    requires forall k :: k in m ==> m[k] == b[k]
    requires forall k :: k in b ==> k in m
    ensures SumValues(m) == |b|
    decreases |m|
  {
    if m == map[] {
      assert b == multiset{};
    } else {
      var p :| p in m;
      SumValuesRemove(m, p);
      var rest := b[p := 0];
      SumIsSize(m - {p}, rest);
      assert b == rest[p := b[p]];
    }
  }
}
