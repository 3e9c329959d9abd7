/** Totals of the values of a map, used to state the conservation laws of the
    time-in-zone aggregators and of the worker's bookkeeping. */
module Sums {

  /** The sum of all values of `m`. */
  ghost function SumValues<K>(m: map<K, int>): int
    decreases |m|
  {
    if m == map[] then 0
    else
      var k :| k in m;
      assert (m - {k}).Keys == m.Keys - {k};
      m[k] + SumValues(m - {k})
  }

  /** Any key can be taken out first: the sum does not depend on the order in
      which keys are visited. */
  lemma {:induction false} SumValuesRemove<K>(m: map<K, int>, k: K)
    requires k in m
    ensures SumValues(m) == m[k] + SumValues(m - {k})
    decreases |m|
  {
    var x :| x in m && SumValues(m) == m[x] + SumValues(m - {x});
    if x != k {
      assert (m - {x}).Keys == m.Keys - {x};
      assert (m - {k}).Keys == m.Keys - {k};
      SumValuesRemove(m - {x}, k);
      SumValuesRemove(m - {k}, x);
      assert m - {x} - {k} == m - {k} - {x};
    }
  }

  /** Overwriting the value at `k` changes the sum by the difference. */
  lemma SumValuesUpdate<K>(m: map<K, int>, k: K, v: int)
    ensures SumValues(m[k := v]) == SumValues(m) - (if k in m then m[k] else 0) + v
  {
    var m' := m[k := v];
    SumValuesRemove(m', k);
    assert m' - {k} == m - {k};
    if k in m {
      SumValuesRemove(m, k);
    } else {
      assert m - {k} == m;
    }
  }

  /** A map whose values are all zero sums to zero. */
  lemma {:induction false} SumValuesZero<K>(m: map<K, int>)
    requires forall k :: k in m ==> m[k] == 0
    ensures SumValues(m) == 0
    decreases |m|
  {
    if m != map[] {
      var k :| k in m;
      SumValuesRemove(m, k);
      assert (m - {k}).Keys == m.Keys - {k};
      SumValuesZero(m - {k});
    }
  }
}
