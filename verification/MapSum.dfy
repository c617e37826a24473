/** Totals over finite maps, and what removing or adding one key does to them. */
module MapSum {

  /** The sum of all values of a map. */
  ghost function Sum<K>(m: map<K, nat>): nat {
    if m == map[] then 0
    else
      var k :| k in m;
      m[k] + Sum(m - {k})
  }

  /** Any key may be taken out first. */
  lemma {:induction false} SumRemove<K>(m: map<K, nat>, k: K)
    requires k in m
    ensures Sum(m) == m[k] + Sum(m - {k})
    decreases |m|
  {
    var first :| first in m && Sum(m) == m[first] + Sum(m - {first});
    if first != k {
      SumRemove(m - {first}, k);
      SumRemove(m - {k}, first);
      assert m - {first} - {k} == m - {k} - {first};
    }
  }

  /** Visiting k grows the visited part of m by exactly that entry. */
  lemma VisitOne<K, V>(m: map<K, V>, rest: set<K>, k: K)
    requires k in m && k in rest
    ensures (m - rest)[k := m[k]] == m - (rest - {k})
  {
  }

  lemma VisitedAll<K, V>(m: map<K, V>)
    ensures m - {} == m
  {
  }

  lemma SumAdd<K>(m: map<K, nat>, k: K, v: nat)
    requires k !in m
    ensures Sum(m[k := v]) == v + Sum(m)
  {
    SumRemove(m[k := v], k);
    assert m[k := v] - {k} == m;
  }
}
