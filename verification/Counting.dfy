/** How many entries of a map satisfy a predicate, and how that number changes with the map. */
module Counting {
  function Those<K, V>(m: map<K, V>, p: V -> bool): set<K> {
    set k | k in m && p(m[k])
  }

  function Count<K, V>(m: map<K, V>, p: V -> bool): nat { |Those(m, p)| }

  function One(b: bool): nat { if b then 1 else 0 }

  lemma CountRemove<K, V>(m: map<K, V>, k: K, p: V -> bool)
    ensures Count(m - {k}, p) + One(k in m && p(m[k])) == Count(m, p)
  {
    assert Those(m - {k}, p) == Those(m, p) - {k};
  }

  lemma CountStore<K, V>(m: map<K, V>, k: K, v: V, p: V -> bool)
    ensures Count(m[k := v], p) + One(k in m && p(m[k])) == Count(m, p) + One(p(v))
  {
    CountRemove(m, k, p);
    CountRemove(m[k := v], k, p);
    assert m[k := v] - {k} == m - {k};
  }

  lemma CountZero<K, V>(m: map<K, V>, p: V -> bool)
    requires forall k :: k in m ==> !p(m[k])
    ensures Count(m, p) == 0
  {
    assert Those(m, p) == {};
  }

  // ----- Sums over the entries of a map -----

  ghost function Pick<K, V>(m: map<K, V>): (k: K)
    requires m != map[]
    ensures k in m
  {
    var k :| k in m;
    k
  }

  ghost function Total<K, V>(m: map<K, V>, weight: V -> nat): nat
    decreases |m|
  {
    if m == map[] then 0 else weight(m[Pick(m)]) + Total(m - {Pick(m)}, weight)
  }

  lemma {:induction false} TotalRemove<K, V>(m: map<K, V>, k: K, weight: V -> nat)
    requires k in m
    ensures Total(m, weight) == weight(m[k]) + Total(m - {k}, weight)
    decreases |m|
  {
    var j := Pick(m);
    if j != k {
      TotalRemove(m - {j}, k, weight);
      TotalRemove(m - {k}, j, weight);
      assert m - {j} - {k} == m - {k} - {j};
    }
  }

  lemma TotalStore<K, V>(m: map<K, V>, k: K, v: V, weight: V -> nat)
    ensures Total(m[k := v], weight) + (if k in m then weight(m[k]) else 0) == Total(m, weight) + weight(v)
  {
    TotalRemove(m[k := v], k, weight);
    assert m[k := v] - {k} == m - {k};
    if k in m {
      TotalRemove(m, k, weight);
    } else {
      assert m - {k} == m;
    }
  }

  /** A number above all keys. */
  lemma {:induction false} AboveAll<V>(m: map<nat, V>) returns (k: nat)
    ensures k !in m && forall i :: i in m ==> i < k
    decreases |m|
  {
    k := 0;
    if i :| i in m {
      var j := AboveAll(m - {i});
      k := if i < j then j else i + 1;
      assert forall l :: l in m ==> l == i || l in m - {i};
    }
  }
}
