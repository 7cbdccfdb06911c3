/** Sums over the values of a map, in no particular order. */
module Totals {

  ghost function Total<K(!new), V(!new)>(m: map<K, V>, f: V -> nat): nat {
    if m == map[] then 0
    else
      var k :| k in m;
      f(m[k]) + Total(m - {k}, f)
  }

  lemma {:induction false} TotalWithout<K(!new), V(!new)>(m: map<K, V>, f: V -> nat, k: K)
    requires k in m
    ensures Total(m, f) == f(m[k]) + Total(m - {k}, f)
    decreases |m|
  {
    var j :| j in m && Total(m, f) == f(m[j]) + Total(m - {j}, f);
    if j != k {
      TotalWithout(m - {j}, f, k);
      TotalWithout(m - {k}, f, j);
      assert (m - {j}) - {k} == (m - {k}) - {j};
    }
  }

  lemma TotalWith<K(!new), V(!new)>(m: map<K, V>, f: V -> nat, k: K, v: V)
    ensures k !in m ==> Total(m[k := v], f) == Total(m, f) + f(v)
    ensures k in m ==> Total(m[k := v], f) + f(m[k]) == Total(m, f) + f(v)
  {
    TotalWithout(m[k := v], f, k);
    if k in m {
      TotalWithout(m, f, k);
      assert m[k := v] - {k} == m - {k};
    } else {
      assert m[k := v] - {k} == m;
    }
  }

  /** Weighing each value less cannot raise the total. */
  lemma {:induction false} TotalShrinks<K(!new), V(!new)>(m: map<K, V>, f: V -> nat, g: V -> nat)
    requires forall k :: k in m ==> g(m[k]) <= f(m[k])
    ensures Total(m, g) <= Total(m, f)
    decreases |m|
  {
    if m != map[] {
      var k :| k in m;
      TotalWithout(m, f, k);
      TotalWithout(m, g, k);
      TotalShrinks(m - {k}, f, g);
    }
  }
}
