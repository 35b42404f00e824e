/** Totals over the entries of a finite map. */
module MapSum {

  ghost function Sum<K(!new), V>(m: map<K, V>, f: (K, V) -> nat): nat
    decreases |m.Keys|
  {
    if m == map[] then 0
    else
      var k :| k in m;
      assert (m - {k}).Keys == m.Keys - {k};
      f(k, m[k]) + Sum(m - {k}, f)
  }

  /** Any entry can be counted first. */
  lemma {:induction false} SumSplit<K(!new), V>(m: map<K, V>, k: K, f: (K, V) -> nat)
    requires k in m
    ensures Sum(m, f) == f(k, m[k]) + Sum(m - {k}, f)
    decreases |m.Keys|
  {
    var c :| c in m && Sum(m, f) == f(c, m[c]) + Sum(m - {c}, f);
    if c != k {
      assert (m - {c}).Keys == m.Keys - {c} && (m - {k}).Keys == m.Keys - {k};
      SumSplit(m - {c}, k, f);
      SumSplit(m - {k}, c, f);
      assert (m - {c}) - {k} == (m - {k}) - {c};
    }
  }

  lemma SumAdd<K(!new), V>(m: map<K, V>, k: K, v: V, f: (K, V) -> nat)
    requires k !in m
    ensures Sum(m[k := v], f) == f(k, v) + Sum(m, f)
  {
    SumSplit(m[k := v], k, f);
    assert m[k := v] - {k} == m;
  }

  lemma SumChange<K(!new), V>(m: map<K, V>, k: K, v: V, f: (K, V) -> nat)
    requires k in m
    ensures Sum(m[k := v], f) + f(k, m[k]) == Sum(m, f) + f(k, v)
  {
    SumSplit(m[k := v], k, f);
    SumSplit(m, k, f);
    assert m[k := v] - {k} == m - {k};
  }
}
