/**
 The sum of the values of a finite map from labels to amounts, the total of a
 Python dictionary's values, which does not depend on the order of its keys.
 */
module MapSums {

  /** The sum of all values of m, taking the keys in an arbitrary order. */
  ghost function SumValues(m: map<string, real>): (sum: real)
    decreases m.Keys
  {
    if m == map[] then 0.0
    else
      var k :| k in m;
      m[k] + SumValues(m - {k})
  }

  /** Any key may be taken first: the sum is that key's value plus the sum of
      the rest. */
  lemma {:induction false} SumValuesRemove(m: map<string, real>, k: string)
    requires k in m
    ensures SumValues(m) == m[k] + SumValues(m - {k})
    decreases m.Keys
  {
    var j :| j in m && SumValues(m) == m[j] + SumValues(m - {j});
    if j != k {
      assert m - {j} - {k} == m - {k} - {j};
      SumValuesRemove(m - {j}, k);
      SumValuesRemove(m - {k}, j);
    }
  }

  /** Setting key k to v replaces k's old contribution (zero when k was
      absent) by v. */
  lemma SumValuesUpdate(m: map<string, real>, k: string, v: real)
    ensures SumValues(m[k := v]) == SumValues(m) - (if k in m then m[k] else 0.0) + v
  {
    var m' := m[k := v];
    SumValuesRemove(m', k);
    assert m' - {k} == m - {k};
    if k in m {
      SumValuesRemove(m, k);
    } else {
      assert m - {k} == m;
    }
  }

  /** A map of non-negative values has a non-negative sum that bounds each
      value. */
  lemma {:induction false} SumValuesBound(m: map<string, real>, k: string)
    requires forall j :: j in m ==> m[j] >= 0.0
    ensures SumValues(m) >= 0.0
    ensures k in m ==> m[k] <= SumValues(m)
    decreases m.Keys
  {
    if m != map[] {
      var j :| j in m;
      SumValuesRemove(m, j);
      SumValuesBound(m - {j}, k);
      if k in m {
        SumValuesRemove(m, k);
        SumValuesBound(m - {k}, k);
      }
    }
  }
}
