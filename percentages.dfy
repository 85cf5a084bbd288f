/**
 The post-pass over the funding composition: each income label's share of
 the funds received, in percent.
 */
module Percentages {
  import opened MapSums
  import opened Ledger

  /** Each label's percentage of total, in a dictionary filled one key at a
      time. A non-empty composition over a zero total has no percentages. */
  method FundingPercentages(composition: map<string, real>, total: real) returns (r: Result<map<string, real>>)
    ensures r.Err? <==> composition != map[] && total == 0.0
    ensures r.Err? ==> r.error == NoIncomeRecorded
    ensures r.Ok? ==> r.value.Keys == composition.Keys
    ensures r.Ok? ==> forall k :: k in composition ==> r.value[k] == 100.0 * (composition[k] / total)
  {
    if composition != map[] && total == 0.0 {
      return Err(NoIncomeRecorded);
    }
    var percentages: map<string, real> := map[];
    var keys := composition.Keys;
    while keys != {}
      invariant keys <= composition.Keys
      invariant percentages.Keys == composition.Keys - keys
      invariant forall k :: k in percentages ==> percentages[k] == 100.0 * (composition[k] / total)
      decreases keys
    {
      var key :| key in keys;
      percentages := percentages[key := 100.0 * (composition[key] / total)];
      keys := keys - {key};
    }
    return Ok(percentages);
  }

  /** Percentages of a total add up to 100 times the share of the summed
      values in that total. */
  lemma {:induction false} PercentagesSum(composition: map<string, real>, percentages: map<string, real>, total: real)
    requires total != 0.0
    requires percentages.Keys == composition.Keys
    requires forall k :: k in composition ==> percentages[k] == 100.0 * (composition[k] / total)
    ensures SumValues(percentages) == 100.0 * (SumValues(composition) / total)
    decreases composition.Keys
  {
    if composition != map[] {
      var k :| k in composition;
      SumValuesRemove(composition, k);
      SumValuesRemove(percentages, k);
      PercentagesSum(composition - {k}, percentages - {k}, total);
      DivideSum(composition[k], SumValues(composition - {k}), total);
    } else {
      assert percentages == map[];
    }
  }

  /** Division distributes over a sum. */
  lemma DivideSum(a: real, b: real, total: real)
    requires total != 0.0
    ensures 100.0 * (a / total) + 100.0 * (b / total) == 100.0 * ((a + b) / total)
  {
    assert (a / total + b / total) * total == a + b;
  }

  /** A part between zero and a positive whole is between 0 and 100 percent of it. */
  lemma PercentInRange(v: real, total: real)
    requires 0.0 <= v <= total && total > 0.0
    ensures 0.0 <= 100.0 * (v / total) <= 100.0
  {
    assert v / total <= 1.0 by {
      assert (v / total) * total == v;
    }
  }

  /** The funding composition of a ledger with non-negative amounts has
      non-negative values. */
  lemma CompositionNonnegative(rows: seq<Row>)
    requires forall r :: r in rows ==> r.amount >= 0.0
    ensures forall l :: l in Composition(rows) ==> Composition(rows)[l] >= 0.0
  {
    forall l | l in Composition(rows) ensures Composition(rows)[l] >= 0.0 {
      CompositionAt(rows, l);
      TotalNonnegative(rows, r => LabelAmount(r, l));
    }
  }

  /** Over a ledger that received a non-zero total, the funding percentages
      add up to exactly 100. */
  lemma LedgerPercentagesSum(rows: seq<Row>, percentages: map<string, real>)
    requires FundsReceived(rows) != 0.0
    requires percentages.Keys == Composition(rows).Keys
    requires forall k :: k in Composition(rows) ==>
               percentages[k] == 100.0 * (Composition(rows)[k] / FundsReceived(rows))
    ensures SumValues(percentages) == 100.0
  {
    var composition, total := Composition(rows), FundsReceived(rows);
    CompositionSum(rows);
    PercentagesSum(composition, percentages, total);
    WholeIsHundred(total);
  }

  /** A non-zero whole is 100 percent of itself. */
  lemma WholeIsHundred(total: real)
    requires total != 0.0
    ensures 100.0 * (total / total) == 100.0
  {
  }

  /** Over a ledger of non-negative amounts that received a non-zero total,
      every funding percentage lies in [0, 100]. */
  lemma LedgerPercentagesRange(rows: seq<Row>, percentages: map<string, real>)
    requires FundsReceived(rows) != 0.0
    requires forall r :: r in rows ==> r.amount >= 0.0
    requires percentages.Keys == Composition(rows).Keys
    requires forall k :: k in Composition(rows) ==>
               percentages[k] == 100.0 * (Composition(rows)[k] / FundsReceived(rows))
    ensures forall k :: k in percentages ==> 0.0 <= percentages[k] <= 100.0
  {
    var composition, total := Composition(rows), FundsReceived(rows);
    CompositionSum(rows);
    CompositionNonnegative(rows);
    forall k | k in composition
      ensures 0.0 <= percentages[k] <= 100.0
    {
      SumValuesBound(composition, k);
      PercentInRange(composition[k], total);
    }
  }
}
