/**
 The analysis pass itself: the accumulators the script keeps (two running
 totals, two daily arrays, two dictionaries), the per-row update, and the
 whole run from a loaded ledger to the figures handed to the plot.
 */
module Aggregation {
  import opened Taxonomy
  import opened Calendar
  import opened Ledger
  import opened Percentages

  /** numpy's `a[idx] += n` for an index array without repeats: every listed
      slot grows by n and no other slot changes; an empty index array
      changes nothing. */
  method AddAt(a: array<real>, idx: seq<nat>, n: real)
    requires forall k :: 0 <= k < |idx| ==> idx[k] < a.Length
    requires forall j, k :: 0 <= j < k < |idx| ==> idx[j] < idx[k]
    modifies a
    ensures forall i :: 0 <= i < a.Length ==> a[i] == old(a[i]) + if i in idx then n else 0.0
  {
    forall k | 0 <= k < |idx| {
      a[idx[k]] := a[idx[k]] + n;
    }
  }

  /** The accumulators of one run over a ledger whose dates span [start, end]. */
  class Aggregator {
    const start: int
    const end: int
    /** One slot per day of [start, end). */
    const timeline: seq<int>
    /** Income per day of the timeline. */
    const incomeDt: array<real>
    /** Spending per day of the timeline. */
    const spendingDt: array<real>
    var cashOnHand: real
    var totalFundsReceived: real
    /** Income per income label, keyed from the label's first row. */
    var fundingComposition: map<string, real>
    /** Number of rows per untracked label. */
    var untracked: map<string, nat>

    ghost predicate Valid()
      reads this
    {
      && timeline == Timeline(start, end)
      && incomeDt.Length == |timeline|
      && spendingDt.Length == |timeline|
      && incomeDt != spendingDt
    }

    /** The accumulators hold exactly what the rows give. */
    ghost predicate Reflects(rows: seq<Row>)
      reads this, incomeDt, spendingDt
      requires Valid()
    {
      && cashOnHand == CashOnHand(rows)
      && totalFundsReceived == FundsReceived(rows)
      && fundingComposition == Composition(rows)
      && untracked == UntrackedCounts(rows)
      && (forall i :: 0 <= i < |timeline| ==> incomeDt[i] == DayTotal(rows, Income, timeline[i]))
      && (forall i :: 0 <= i < |timeline| ==> spendingDt[i] == DayTotal(rows, Spending, timeline[i]))
    }

    /** Empty dictionaries, zero totals and two all-zero daily arrays, one
        slot per day from startDate up to but excluding endDate. */
    constructor (startDate: int, endDate: int)
      ensures Valid() && start == startDate && end == endDate
      ensures fresh(incomeDt) && fresh(spendingDt)
      ensures |timeline| == if startDate < endDate then endDate - startDate else 0
      ensures endDate !in timeline
      ensures forall i :: 0 <= i < |timeline| ==> incomeDt[i] == 0.0 && spendingDt[i] == 0.0
      ensures cashOnHand == 0.0 && totalFundsReceived == 0.0
      ensures fundingComposition == map[] && untracked == map[]
      ensures Reflects([])
    {
      start, end := startDate, endDate;
      var t := Timeline(startDate, endDate);
      timeline := t;
      incomeDt := new real[|t|](_ => 0.0);
      spendingDt := new real[|t|](_ => 0.0);
      cashOnHand, totalFundsReceived := 0.0, 0.0;
      fundingComposition, untracked := map[], map[];
      new;
    }

    /** One pass of the row loop. A tracked row moves cash on hand by its
        signed amount; an income row also adds to the funds received, to its
        label's composition entry and to its day's income slot; a spending row
        adds to its day's spending slot; an untracked row only bumps its
        label's counter. A row whose day has no slot leaves both arrays as
        they were. */
    method Ingest(row: Row)
      requires Valid()
      modifies this, incomeDt, spendingDt
      ensures Valid()
      ensures cashOnHand == old(cashOnHand) + SignedAmount(row)
      ensures totalFundsReceived == old(totalFundsReceived) + Amount(row, Income)
      ensures fundingComposition == AddIncome(old(fundingComposition), row)
      ensures untracked == AddUntracked(old(untracked), row)
      ensures forall i :: 0 <= i < |timeline| ==> incomeDt[i] == old(incomeDt[i]) + AmountOn(row, Income, timeline[i])
      ensures forall i :: 0 <= i < |timeline| ==> spendingDt[i] == old(spendingDt[i]) + AmountOn(row, Spending, timeline[i])
      ensures row.date !in timeline ==>
                forall i :: 0 <= i < |timeline| ==> incomeDt[i] == old(incomeDt[i]) && spendingDt[i] == old(spendingDt[i])
    {
      var t, n := row.subType, row.amount;
      var dateidx := Where(timeline, row.date);
      if t in TransactionT {
        var sign := TransactionT[t];
        SignsAreUnit(t);
        cashOnHand := cashOnHand + sign as real * n;
        if sign == 1 {
          totalFundsReceived := totalFundsReceived + n;
          AddAt(incomeDt, dateidx, n);
          if t in fundingComposition {
            fundingComposition := fundingComposition[t := fundingComposition[t] + n];
          } else {
            fundingComposition := fundingComposition[t := n];
          }
        } else {
          AddAt(spendingDt, dateidx, n);
        }
      } else {
        if t in untracked {
          untracked := untracked[t := untracked[t] + 1];
        } else {
          untracked := untracked[t := 1];
        }
      }
    }

    /** The row loop: every row ingested once, in ledger order, into
        accumulators that start empty. */
    method IngestAll(rows: seq<Row>)
      requires Valid() && Reflects([])
      modifies this, incomeDt, spendingDt
      ensures Valid() && Reflects(rows)
    {
      var i := 0;
      while i < |rows|
        invariant 0 <= i <= |rows|
        invariant Valid() && Reflects(rows[..i])
      {
        var done, row := rows[..i], rows[i];
        assert rows[..i + 1] == done + [row];
        Ingest(row);
        Step(done, row);
        i := i + 1;
      }
      assert rows[..i] == rows;
    }
  }

  /** Everything the run hands to the plot and leaves behind. */
  datatype Report = Report(
    timeline: seq<int>,
    incomeDt: seq<real>,
    spendingDt: seq<real>,
    cashOnHand: real,
    totalFundsReceived: real,
    fundingComposition: map<string, real>,
    fundingPercentages: map<string, real>,
    untracked: map<string, nat>)

  /** The whole analysis of a loaded ledger: the timeline from the earliest
      to the latest date, every row ingested in ledger order, then the
      funding percentages. */
  method ProcessLedger(rows: seq<Row>) returns (r: Result<Report>)
    ensures r == Err(EmptyLedger) <==> rows == []
    ensures r == Err(NoIncomeRecorded) <==>
              rows != [] && Composition(rows) != map[] && FundsReceived(rows) == 0.0
    ensures r.Ok? && rows != [] ==> (
      var rep, first, last := r.value, MinDate(rows), MaxDate(rows);
      && rep.timeline == Timeline(first, last)
      && rep.incomeDt == Series(rows, Income, first, |rep.timeline|)
      && rep.spendingDt == Series(rows, Spending, first, |rep.timeline|)
      && rep.cashOnHand == CashOnHand(rows)
      && rep.totalFundsReceived == FundsReceived(rows)
      && rep.fundingComposition == Composition(rows)
      && rep.untracked == UntrackedCounts(rows)
      && rep.fundingPercentages.Keys == rep.fundingComposition.Keys
      && forall k :: k in rep.fundingPercentages ==>
           rep.fundingPercentages[k] == 100.0 * (rep.fundingComposition[k] / rep.totalFundsReceived))
  {
    if rows == [] {
      return Err(EmptyLedger);
    }
    var agg := new Aggregator(MinDate(rows), MaxDate(rows));
    agg.IngestAll(rows);
    SlotsFormSeries(rows, Income, agg.start, agg.timeline, agg.incomeDt[..]);
    SlotsFormSeries(rows, Spending, agg.start, agg.timeline, agg.spendingDt[..]);
    var percentages := FundingPercentages(agg.fundingComposition, agg.totalFundsReceived);
    if percentages.Err? {
      return Err(percentages.error);
    }
    return Ok(Report(agg.timeline, agg.incomeDt[..], agg.spendingDt[..], agg.cashOnHand,
                     agg.totalFundsReceived, agg.fundingComposition, percentages.value, agg.untracked));
  }
}
