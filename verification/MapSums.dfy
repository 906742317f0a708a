/** Sums of a weight over the entries of a map. */
module MapSums {

  ghost function Pick<K(!new), V>(m: map<K, V>): (k: K)
    requires |m| != 0
    ensures k in m
  {
    var k :| k in m;
    k
  }

  ghost function Sum<K(!new), V>(m: map<K, V>, f: V -> int): int {
    if |m| == 0 then 0 else
    var k := Pick(m);
    f(m[k]) + Sum(m - {k}, f)
  }

  lemma {:induction false} SumRemove<K(!new), V>(m: map<K, V>, k: K, f: V -> int)
    requires k in m
    ensures Sum(m, f) == f(m[k]) + Sum(m - {k}, f)
    decreases |m|
  {
    var c := Pick(m);
    if c != k {
      SumRemove(m - {c}, k, f);
      SumRemove(m - {k}, c, f);
      assert m - {c} - {k} == m - {k} - {c};
    }
  }

  function ValueAt<K, V>(m: map<K, V>, k: K, f: V -> int): int {
    if k in m then f(m[k]) else 0
  }

  lemma SumUpdate<K(!new), V>(m: map<K, V>, k: K, v: V, f: V -> int)
    ensures Sum(m[k := v], f) == Sum(m, f) - ValueAt(m, k, f) + f(v)
  {
    SumRemove(m[k := v], k, f);
    assert m[k := v] - {k} == m - {k};
    if k in m {
      SumRemove(m, k, f);
    } else {
      assert m - {k} == m;
    }
  }

  lemma {:induction false} SumNonNegative<K(!new), V>(m: map<K, V>, f: V -> int)
    requires forall k :: k in m ==> f(m[k]) >= 0
    ensures Sum(m, f) >= 0
    decreases |m|
  {
    if |m| != 0 {
      var k :| k in m;
      SumRemove(m, k, f);
      SumNonNegative(m - {k}, f);
    }
  }

  lemma SumAtLeast<K(!new), V>(m: map<K, V>, k: K, f: V -> int)
    requires forall k :: k in m ==> f(m[k]) >= 0
    ensures ValueAt(m, k, f) <= Sum(m, f)
  {
    SumNonNegative(m, f);
    if k in m {
      SumRemove(m, k, f);
      SumNonNegative(m - {k}, f);
    }
  }

  lemma {:induction false} SumMonotone<K(!new), V>(m: map<K, V>, f: V -> int, g: V -> int)
    requires forall k :: k in m ==> f(m[k]) <= g(m[k])
    ensures Sum(m, f) <= Sum(m, g)
    decreases |m|
  {
    if |m| != 0 {
      var k := Pick(m);
      SumMonotone(m - {k}, f, g);
    }
  }
}
