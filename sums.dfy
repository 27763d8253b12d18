/**
 * Sums over the values of a finite map, as `sum(d.values())` computes them,
 * and the facts about them that the aggregations need.
 */
module Sums {

  /** The sum of all values of `m`, in no particular order. */
  ghost function SumValues<K>(m: map<K, real>): real
    decreases |m|
  {
    if m == map[] then 0.0
    else
      var k := PickKey(m);
      m[k] + SumValues(m - {k})
  }

  ghost function PickKey<K>(m: map<K, real>): (k: K)
    requires m != map[]
    ensures k in m
  {
    var k :| k in m;
    k
  }

  /** Any key may be taken out first: the sum does not depend on the order. */
  lemma {:induction false} SumValuesRemove<K>(m: map<K, real>, k: K)
    requires k in m
    ensures SumValues(m) == m[k] + SumValues(m - {k})
    decreases |m|
  {
    var j := PickKey(m);
    if j != k {
      var mj, mk := m - {j}, m - {k};
      assert |mj| == |m| - 1 && |mk| == |m| - 1;
      SumValuesRemove(mj, k);
      SumValuesRemove(mk, j);
      assert mj - {k} == mk - {j};
    }
  }

  /** Changing (or adding) the value of one key changes the sum by the difference. */
  lemma SumValuesUpdate<K>(m: map<K, real>, k: K, x: real)
    ensures SumValues(m[k := x]) == SumValues(m) + x - (if k in m then m[k] else 0.0)
  {
    var m' := m[k := x];
    SumValuesRemove(m', k);
    if k in m {
      SumValuesRemove(m, k);
      assert m' - {k} == m - {k};
    } else {
      assert m' - {k} == m;
    }
  }

  /** A non-empty map of positive values has a positive sum. */
  lemma {:induction false} SumValuesPositive<K>(m: map<K, real>)
    requires forall k :: k in m ==> m[k] > 0.0
    ensures |m| == 0 <==> SumValues(m) == 0.0
    ensures |m| > 0 <==> SumValues(m) > 0.0
    decreases |m|
  {
    if m != map[] {
      var k := PickKey(m);
      SumValuesRemove(m, k);
      SumValuesPositive(m - {k});
    }
  }
}
