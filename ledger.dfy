/**
 What the analysis computes from a ledger, stated as functions of the whole
 sequence of rows: each accumulator of the row loop is a fold over the rows
 in ledger order. The lemmas give the accumulators their meaning: cash on hand
 is income minus spending, the funding composition adds up to the funds
 received, the daily series account for every tracked amount except those on
 the last day, and no result depends on the order of the rows.
 */
module Ledger {
  import opened Taxonomy
  import opened MapSums

  /** One ledger row: its transaction day, its sub-type label and its amount. */
  datatype Row = Row(date: int, subType: string, amount: real)

  /** The conditions under which the analysis has no result: a ledger without
      rows has no date range, and percentages of a zero income are undefined. */
  datatype Error = EmptyLedger | NoIncomeRecorded

  datatype Result<T> = Ok(value: T) | Err(error: Error)

  /** What a row adds to cash on hand: its sign times its amount, nothing
      when its label is untracked. */
  function SignedAmount(r: Row): (a: real)
  {
    if r.subType in TransactionT then TransactionT[r.subType] as real * r.amount else 0.0
  }

  /** The row's amount when it is of kind k, zero otherwise. */
  function Amount(r: Row, k: Kind): (a: real)
  {
    if Classify(r.subType) == k then r.amount else 0.0
  }

  /** The row's amount when it is of kind k and dated d, zero otherwise. */
  function AmountOn(r: Row, k: Kind, d: int): (a: real)
  {
    if r.date == d then Amount(r, k) else 0.0
  }

  /** The row's amount when it is of kind k and dated in [lo, hi), zero otherwise. */
  function AmountWithin(r: Row, k: Kind, lo: int, hi: int): (a: real)
  {
    if lo <= r.date < hi then Amount(r, k) else 0.0
  }

  /** The row's amount when it is labelled l, zero otherwise. */
  function LabelAmount(r: Row, l: string): (a: real)
  {
    if r.subType == l then r.amount else 0.0
  }

  /** One when the row is labelled l, zero otherwise. */
  function LabelCount(r: Row, l: string): (c: real)
  {
    if r.subType == l then 1.0 else 0.0
  }

  /** The sum of w over the rows, accumulated in ledger order. */
  function Total(rows: seq<Row>, w: Row -> real): (t: real)
  {
    if rows == [] then 0.0 else Total(rows[..|rows| - 1], w) + w(rows[|rows| - 1])
  }

  /** Final cash on hand. */
  function CashOnHand(rows: seq<Row>): (cash: real)
  {
    Total(rows, SignedAmount)
  }

  /** The sum of the amounts of all rows of kind k. */
  function KindTotal(rows: seq<Row>, k: Kind): (t: real)
  {
    Total(rows, r => Amount(r, k))
  }

  /** Final total of funds received: the sum of all income amounts. */
  function FundsReceived(rows: seq<Row>): (funds: real)
  {
    KindTotal(rows, Income)
  }

  /** The sum of all spending amounts. */
  function Spent(rows: seq<Row>): (spent: real)
  {
    KindTotal(rows, Spending)
  }

  /** The sum of the amounts of the rows of kind k dated d. */
  function DayTotal(rows: seq<Row>, k: Kind, d: int): (t: real)
  {
    Total(rows, r => AmountOn(r, k, d))
  }

  /** The sum of the amounts of the rows of kind k dated in [lo, hi). */
  function WithinTotal(rows: seq<Row>, k: Kind, lo: int, hi: int): (t: real)
  {
    Total(rows, r => AmountWithin(r, k, lo, hi))
  }

  /** The sum of the amounts of the rows labelled l. */
  function LabelTotal(rows: seq<Row>, l: string): (t: real)
  {
    Total(rows, r => LabelAmount(r, l))
  }

  /** The number of rows labelled l. */
  function Occurrences(rows: seq<Row>, l: string): (c: nat)
  {
    if rows == [] then 0
    else Occurrences(rows[..|rows| - 1], l) + if rows[|rows| - 1].subType == l then 1 else 0
  }

  /** The funding composition after row r: an income row adds its amount to
      its label's entry, creating the entry with that amount when the label is
      new; any other row leaves it as it was. */
  function AddIncome(m: map<string, real>, r: Row): (next: map<string, real>)
  {
    if Classify(r.subType) == Income then
      m[r.subType := if r.subType in m then m[r.subType] + r.amount else r.amount]
    else m
  }

  /** The untracked counter after row r: an untracked row bumps its label's
      count, starting it at one when the label is new; any other row leaves it
      as it was. */
  function AddUntracked(m: map<string, nat>, r: Row): (next: map<string, nat>)
  {
    if Classify(r.subType) == Untracked then
      m[r.subType := if r.subType in m then m[r.subType] + 1 else 1]
    else m
  }

  /** Final funding composition: income per income label, a key appearing
      with the first row that carries it. */
  function Composition(rows: seq<Row>): (comp: map<string, real>)
  {
    if rows == [] then map[] else AddIncome(Composition(rows[..|rows| - 1]), rows[|rows| - 1])
  }

  /** Final counter of untracked labels. */
  function UntrackedCounts(rows: seq<Row>): (counts: map<string, nat>)
  {
    if rows == [] then map[] else AddUntracked(UntrackedCounts(rows[..|rows| - 1]), rows[|rows| - 1])
  }

  /** The daily series of kind k over the n days from start. */
  function Series(rows: seq<Row>, k: Kind, start: int, n: nat): (s: seq<real>)
  {
    seq(n, i => DayTotal(rows, k, start + i))
  }

  /** The sum of the entries of s. */
  function SeqSum(s: seq<real>): (sum: real)
  {
    if s == [] then 0.0 else SeqSum(s[..|s| - 1]) + s[|s| - 1]
  }

  /** The earliest transaction date. */
  function MinDate(rows: seq<Row>): (d: int)
    requires rows != []
    ensures exists i :: 0 <= i < |rows| && rows[i].date == d
    ensures forall i :: 0 <= i < |rows| ==> d <= rows[i].date
  {
    if |rows| == 1 then rows[0].date
    else
      var m := MinDate(rows[1..]);
      if rows[0].date <= m then rows[0].date else m
  }

  /** The latest transaction date. */
  function MaxDate(rows: seq<Row>): (d: int)
    requires rows != []
    ensures exists i :: 0 <= i < |rows| && rows[i].date == d
    ensures forall i :: 0 <= i < |rows| ==> rows[i].date <= d
  {
    if |rows| == 1 then rows[0].date
    else
      var m := MaxDate(rows[1..]);
      if m <= rows[0].date then rows[0].date else m
  }

  // ---------------------------------------------------------------------
  // One more row: how every fold moves when a row is appended.

  /** Appending row x to the ledger s moves each accumulator by x's part. */
  lemma Step(s: seq<Row>, x: Row)
    ensures CashOnHand(s + [x]) == CashOnHand(s) + SignedAmount(x)
    ensures forall k :: KindTotal(s + [x], k) == KindTotal(s, k) + Amount(x, k)
    ensures forall k, d :: DayTotal(s + [x], k, d) == DayTotal(s, k, d) + AmountOn(x, k, d)
    ensures forall l :: LabelTotal(s + [x], l) == LabelTotal(s, l) + LabelAmount(x, l)
    ensures forall l :: Occurrences(s + [x], l) == Occurrences(s, l) + if x.subType == l then 1 else 0
    ensures Composition(s + [x]) == AddIncome(Composition(s), x)
    ensures UntrackedCounts(s + [x]) == AddUntracked(UntrackedCounts(s), x)
  {
    assert (s + [x])[..|s|] == s;
  }

  // ---------------------------------------------------------------------
  // Facts about Total.

  /** Totals add when their weights add on every row of the ledger. */
  lemma {:induction false} TotalAdd(rows: seq<Row>, w: Row -> real, w1: Row -> real, w2: Row -> real)
    requires forall r :: r in rows ==> w(r) == w1(r) + w2(r)
    ensures Total(rows, w) == Total(rows, w1) + Total(rows, w2)
  {
    if rows != [] {
      var init := rows[..|rows| - 1];
      assert forall r :: r in init ==> r in rows;
      TotalAdd(init, w, w1, w2);
    }
  }

  /** A weight that is non-negative on every row gives a non-negative total. */
  lemma {:induction false} TotalNonnegative(rows: seq<Row>, w: Row -> real)
    requires forall r :: r in rows ==> w(r) >= 0.0
    ensures Total(rows, w) >= 0.0
  {
    if rows != [] {
      var init := rows[..|rows| - 1];
      assert forall r :: r in init ==> r in rows;
      TotalNonnegative(init, w);
    }
  }

  /** A weight that is zero on every row gives a zero total. */
  lemma {:induction false} TotalZero(rows: seq<Row>, w: Row -> real)
    requires forall r :: r in rows ==> w(r) == 0.0
    ensures Total(rows, w) == 0.0
  {
    if rows != [] {
      var init := rows[..|rows| - 1];
      assert forall r :: r in init ==> r in rows;
      TotalZero(init, w);
    }
  }

  /** Any row may be taken out of the ledger: the total is its weight plus the
      total of the others. */
  lemma {:induction false} TotalRemove(rows: seq<Row>, j: nat, w: Row -> real)
    requires j < |rows|
    ensures Total(rows, w) == Total(rows[..j] + rows[j + 1..], w) + w(rows[j])
  {
    var n := |rows| - 1;
    var init := rows[..n];
    if j < n {
      TotalRemove(init, j, w);
      var rest := init[..j] + init[j + 1..];
      assert rows[..j] + rows[j + 1..] == rest + [rows[n]];
      assert (rest + [rows[n]])[..|rest|] == rest;
    } else {
      assert rows[..j] + rows[j + 1..] == init;
    }
  }

  /** Totals do not depend on the order of the rows. */
  lemma {:induction false} TotalPermutation(a: seq<Row>, b: seq<Row>, w: Row -> real)
    requires multiset(a) == multiset(b)
    ensures Total(a, w) == Total(b, w)
    decreases |a|
  {
    if a == [] {
      assert |b| == |multiset(b)| == 0;
    } else {
      var n := |a| - 1;
      var x := a[n];
      assert a == a[..n] + [x];
      assert x in multiset(b);
      var j :| 0 <= j < |b| && b[j] == x;
      assert b == b[..j] + [x] + b[j + 1..];
      var b' := b[..j] + b[j + 1..];
      assert multiset(a) == multiset(a[..n]) + multiset{x};
      assert multiset(b) == multiset(b[..j]) + multiset{x} + multiset(b[j + 1..]);
      assert multiset(b') == multiset(b[..j]) + multiset(b[j + 1..]);
      assert multiset(a[..n]) == multiset(a) - multiset{x};
      assert multiset(b') == multiset(b) - multiset{x};
      TotalPermutation(a[..n], b', w);
      TotalRemove(b, j, w);
    }
  }

  // ---------------------------------------------------------------------
  // What the accumulators mean.

  /** A row moves cash on hand up by its amount when it is income, down by
      its amount when it is spending, and not at all when it is untracked. */
  lemma SignedAmountByKind(r: Row)
    ensures SignedAmount(r) == Amount(r, Income) - Amount(r, Spending)
  {
    if r.subType in TransactionT {
      SignsAreUnit(r.subType);
    }
  }

  /** What one row does to each accumulator, by kind: an income row adds its
      amount to cash on hand, to the funds received and to its label's
      composition entry (a new entry starts at the amount); a spending row
      takes its amount off cash on hand and touches no income accumulator;
      an untracked row moves no amount and only bumps its label's counter
      (a new counter starts at one). */
  lemma RowEffect(r: Row, composition: map<string, real>, untracked: map<string, nat>)
    ensures Classify(r.subType) == Income ==>
              && SignedAmount(r) == r.amount && Amount(r, Income) == r.amount && Amount(r, Spending) == 0.0
              && AddIncome(composition, r) == composition[r.subType :=
                   if r.subType in composition then composition[r.subType] + r.amount else r.amount]
              && AddUntracked(untracked, r) == untracked
    ensures Classify(r.subType) == Spending ==>
              && SignedAmount(r) == -r.amount && Amount(r, Income) == 0.0 && Amount(r, Spending) == r.amount
              && AddIncome(composition, r) == composition
              && AddUntracked(untracked, r) == untracked
    ensures Classify(r.subType) == Untracked ==>
              && SignedAmount(r) == 0.0 && Amount(r, Income) == 0.0 && Amount(r, Spending) == 0.0
              && AddIncome(composition, r) == composition
              && AddUntracked(untracked, r) == untracked[r.subType :=
                   if r.subType in untracked then untracked[r.subType] + 1 else 1]
  {
    SignedAmountByKind(r);
  }

  /** Conservation: cash on hand is what was received minus what was spent;
      untracked rows count in neither. */
  lemma CashConservation(rows: seq<Row>)
    ensures CashOnHand(rows) == FundsReceived(rows) - Spent(rows)
  {
    forall r: Row
      ensures Amount(r, Income) == SignedAmount(r) + Amount(r, Spending)
    {
      SignedAmountByKind(r);
    }
    TotalAdd(rows, r => Amount(r, Income), SignedAmount, r => Amount(r, Spending));
  }

  /** Slots that each hold the total of their own day, over consecutive days
      from start, form the daily series from start. */
  lemma SlotsFormSeries(rows: seq<Row>, k: Kind, start: int, t: seq<int>, slots: seq<real>)
    requires |slots| == |t|
    requires forall i :: 0 <= i < |t| ==> t[i] == start + i
    requires forall i :: 0 <= i < |t| ==> slots[i] == DayTotal(rows, k, t[i])
    ensures slots == Series(rows, k, start, |t|)
  {
  }

  /** The funding composition holds exactly the income labels that occur in
      the ledger, each with the sum of its rows' amounts. */
  lemma {:induction false} CompositionAt(rows: seq<Row>, l: string)
    ensures l in Composition(rows) <==> Classify(l) == Income && exists r :: r in rows && r.subType == l
    ensures Classify(l) == Income ==>
              LabelTotal(rows, l) == if l in Composition(rows) then Composition(rows)[l] else 0.0
  {
    if rows != [] {
      var init, x := rows[..|rows| - 1], rows[|rows| - 1];
      assert rows == init + [x];
      CompositionAt(init, l);
      Step(init, x);
    }
  }

  /** The untracked counter holds exactly the untracked labels that occur in
      the ledger, each with its number of rows. */
  lemma {:induction false} UntrackedAt(rows: seq<Row>, l: string)
    ensures l in UntrackedCounts(rows) <==> Classify(l) == Untracked && exists r :: r in rows && r.subType == l
    ensures Classify(l) == Untracked ==>
              Occurrences(rows, l) == if l in UntrackedCounts(rows) then UntrackedCounts(rows)[l] else 0
  {
    if rows != [] {
      var init, x := rows[..|rows| - 1], rows[|rows| - 1];
      assert rows == init + [x];
      UntrackedAt(init, l);
      Step(init, x);
    }
  }

  /** The number of rows labelled l, as a total of ones. */
  lemma {:induction false} OccurrencesAsTotal(rows: seq<Row>, l: string)
    ensures Occurrences(rows, l) as real == Total(rows, r => LabelCount(r, l))
  {
    if rows != [] {
      OccurrencesAsTotal(rows[..|rows| - 1], l);
    }
  }

  /** The values of the funding composition add up to the funds received. */
  lemma {:induction false} CompositionSum(rows: seq<Row>)
    ensures SumValues(Composition(rows)) == FundsReceived(rows)
  {
    if rows != [] {
      var init, x := rows[..|rows| - 1], rows[|rows| - 1];
      assert rows == init + [x];
      CompositionSum(init);
      Step(init, x);
      var m := Composition(init);
      if Classify(x.subType) == Income {
        SumValuesUpdate(m, x.subType, if x.subType in m then m[x.subType] + x.amount else x.amount);
      }
    }
  }

  /** Order independence: every final accumulator and the date range are the
      same for any reordering of the ledger. */
  lemma OrderIndependence(a: seq<Row>, b: seq<Row>)
    requires multiset(a) == multiset(b)
    ensures CashOnHand(a) == CashOnHand(b)
    ensures forall k :: KindTotal(a, k) == KindTotal(b, k)
    ensures forall k, start, n :: Series(a, k, start, n) == Series(b, k, start, n)
    ensures Composition(a) == Composition(b)
    ensures UntrackedCounts(a) == UntrackedCounts(b)
    ensures a != [] ==> b != [] && MinDate(a) == MinDate(b) && MaxDate(a) == MaxDate(b)
  {
    TotalsReorder(a, b);
    MapsReorder(a, b);
    if a != [] {
      DatesReorder(a, b);
    }
  }

  /** The sums of the row loop do not depend on the order of the rows. */
  lemma TotalsReorder(a: seq<Row>, b: seq<Row>)
    requires multiset(a) == multiset(b)
    ensures CashOnHand(a) == CashOnHand(b)
    ensures forall k :: KindTotal(a, k) == KindTotal(b, k)
    ensures forall k, start, n :: Series(a, k, start, n) == Series(b, k, start, n)
  {
    TotalPermutation(a, b, SignedAmount);
    forall k ensures KindTotal(a, k) == KindTotal(b, k) {
      TotalPermutation(a, b, r => Amount(r, k));
    }
    forall k, d ensures DayTotal(a, k, d) == DayTotal(b, k, d) {
      TotalPermutation(a, b, r => AmountOn(r, k, d));
    }
  }

  /** Neither dictionary of the row loop depends on the order of the rows:
      the same keys, each with the same value. */
  lemma MapsReorder(a: seq<Row>, b: seq<Row>)
    requires multiset(a) == multiset(b)
    ensures Composition(a) == Composition(b)
    ensures UntrackedCounts(a) == UntrackedCounts(b)
  {
    assert forall r :: r in a <==> r in b by {
      forall r ensures r in a <==> r in b {
        assert r in a <==> r in multiset(a);
        assert r in b <==> r in multiset(b);
      }
    }
    forall l ensures l in Composition(a) <==> l in Composition(b)
      ensures l in Composition(a) ==> Composition(a)[l] == Composition(b)[l]
    {
      CompositionAt(a, l);
      CompositionAt(b, l);
      TotalPermutation(a, b, r => LabelAmount(r, l));
    }
    forall l ensures l in UntrackedCounts(a) <==> l in UntrackedCounts(b)
      ensures l in UntrackedCounts(a) ==> UntrackedCounts(a)[l] == UntrackedCounts(b)[l]
    {
      UntrackedAt(a, l);
      UntrackedAt(b, l);
      OccurrencesAsTotal(a, l);
      OccurrencesAsTotal(b, l);
      TotalPermutation(a, b, r => LabelCount(r, l));
    }
  }

  /** The earliest and the latest date do not depend on the order of the rows. */
  lemma DatesReorder(a: seq<Row>, b: seq<Row>)
    requires a != [] && multiset(a) == multiset(b)
    ensures b != [] && MinDate(a) == MinDate(b) && MaxDate(a) == MaxDate(b)
  {
    assert |b| == |multiset(b)| == |multiset(a)| == |a|;
    var i :| 0 <= i < |a| && a[i].date == MinDate(a);
    var j :| 0 <= j < |b| && b[j].date == MinDate(b);
    assert a[i] in multiset(b) && b[j] in multiset(a);
    var i' :| 0 <= i' < |a| && a[i'].date == MaxDate(a);
    var j' :| 0 <= j' < |b| && b[j'].date == MaxDate(b);
    assert a[i'] in multiset(b) && b[j'] in multiset(a);
  }

  // ---------------------------------------------------------------------
  // The daily series.

  /** The n-day series from start adds up to the amounts dated in [start, start + n). */
  lemma {:induction false} SeriesSum(rows: seq<Row>, k: Kind, start: int, n: nat)
    ensures SeqSum(Series(rows, k, start, n)) == WithinTotal(rows, k, start, start + n)
  {
    if n == 0 {
      TotalZero(rows, r => AmountWithin(r, k, start, start));
    } else {
      SeriesSum(rows, k, start, n - 1);
      var s := Series(rows, k, start, n);
      assert s[..n - 1] == Series(rows, k, start, n - 1);
      assert SeqSum(s) == SeqSum(s[..n - 1]) + DayTotal(rows, k, start + n - 1);
      TotalAdd(rows, r => AmountWithin(r, k, start, start + n),
                     r => AmountWithin(r, k, start, start + n - 1),
                     r => AmountOn(r, k, start + n - 1));
    }
  }

  /** The series built over [first date, last date) accounts for every amount
      of kind k except those dated on the last date, which has no slot. */
  lemma SeriesMissesLastDay(rows: seq<Row>, k: Kind, first: int, last: int)
    requires rows != [] && first == MinDate(rows) && last == MaxDate(rows)
    ensures first <= last
    ensures SeqSum(Series(rows, k, first, last - first)) + DayTotal(rows, k, last) == KindTotal(rows, k)
  {
    DateRange(rows);
    assert rows[0] in rows;
    SeriesMissesEnd(rows, k, first, last);
  }

  /** When every row is dated in [lo, hi], the series over [lo, hi) misses
      exactly the amounts dated hi. */
  lemma SeriesMissesEnd(rows: seq<Row>, k: Kind, lo: int, hi: int)
    requires lo <= hi
    requires forall r :: r in rows ==> lo <= r.date <= hi
    ensures SeqSum(Series(rows, k, lo, hi - lo)) + DayTotal(rows, k, hi) == KindTotal(rows, k)
  {
    SeriesSum(rows, k, lo, hi - lo);
    assert lo + (hi - lo) == hi;
    KindTotalSplit(rows, k, lo, hi);
  }

  /** Every row is dated between the earliest and the latest date. */
  lemma DateRange(rows: seq<Row>)
    requires rows != []
    ensures forall r :: r in rows ==> MinDate(rows) <= r.date <= MaxDate(rows)
  {
    forall r | r in rows
      ensures MinDate(rows) <= r.date <= MaxDate(rows)
    {
      var i :| 0 <= i < |rows| && rows[i] == r;
    }
  }

  /** When every row is dated in [lo, hi], the amounts of kind k are those
      dated in [lo, hi) plus those dated hi. */
  lemma KindTotalSplit(rows: seq<Row>, k: Kind, lo: int, hi: int)
    requires forall r :: r in rows ==> lo <= r.date <= hi
    ensures KindTotal(rows, k) == WithinTotal(rows, k, lo, hi) + DayTotal(rows, k, hi)
  {
    forall r | r in rows
      ensures Amount(r, k) == AmountWithin(r, k, lo, hi) + AmountOn(r, k, hi)
    {
      DateSplit(r, k, lo, hi);
    }
    TotalAdd(rows, r => Amount(r, k), r => AmountWithin(r, k, lo, hi), r => AmountOn(r, k, hi));
  }

  /** A row dated in [lo, hi] falls either in [lo, hi) or on hi. */
  lemma DateSplit(r: Row, k: Kind, lo: int, hi: int)
    requires lo <= r.date <= hi
    ensures Amount(r, k) == AmountWithin(r, k, lo, hi) + AmountOn(r, k, hi)
  {
  }

  /** With non-negative amounts the daily income series never adds up to more
      than the funds received, and adds up to exactly that when no income row
      falls on the last date. */
  lemma IncomeSeriesBound(rows: seq<Row>, first: int, last: int)
    requires rows != [] && first == MinDate(rows) && last == MaxDate(rows)
    requires forall r :: r in rows ==> r.amount >= 0.0
    ensures first <= last
    ensures SeqSum(Series(rows, Income, first, last - first)) <= FundsReceived(rows)
    ensures (forall r :: r in rows && Classify(r.subType) == Income ==> r.date != last) ==>
              SeqSum(Series(rows, Income, first, last - first)) == FundsReceived(rows)
  {
    SeriesMissesLastDay(rows, Income, first, last);
    TotalNonnegative(rows, r => AmountOn(r, Income, last));
    if forall r :: r in rows && Classify(r.subType) == Income ==> r.date != last {
      TotalZero(rows, r => AmountOn(r, Income, last));
    }
  }

  // ---------------------------------------------------------------------
  // Worked examples.

  /** Two rows on day 0 and a loan on day 1. */
  const ThreeRows: seq<Row> := [Row(0, "Cash Contribution", 500.0),
                                Row(0, "Cash Expenditure", 200.0),
                                Row(1, "Loan Received", 1000.0)]

  /** The three rows span days 0 to 1, so the timeline has the single slot of day 0. */
  lemma ThreeRowDates()
    ensures MinDate(ThreeRows) == 0 && MaxDate(ThreeRows) == 1
  {
    var rows := ThreeRows;
    assert MinDate(rows[1..]) == 0 && MaxDate(rows[1..]) == 1;
  }

  /** The loan counts in cash on hand, in the funds received and in the
      composition, and the spending row counts in cash on hand only. */
  lemma {:induction false} ThreeRowTotals()
    ensures CashOnHand(ThreeRows) == 1300.0
    ensures FundsReceived(ThreeRows) == 1500.0
    ensures Composition(ThreeRows) == map["Cash Contribution" := 500.0, "Loan Received" := 1000.0]
    ensures UntrackedCounts(ThreeRows) == map[]
  {
    var rows := ThreeRows;
    var r0, r1 := rows[..1], rows[..2];
    assert r0 == [] + [rows[0]] && r1 == r0 + [rows[1]] && rows == r1 + [rows[2]];
    assert Classify(rows[0].subType) == Income;
    assert Classify(rows[1].subType) == Spending;
    assert Classify(rows[2].subType) == Income;
    Step([], rows[0]);
    Step(r0, rows[1]);
    Step(r1, rows[2]);
  }

  /** The loan, dated on the last day, is missing from the daily income
      series, which holds only the contribution of day 0. */
  lemma {:induction false} ThreeRowSeries()
    ensures Series(ThreeRows, Income, 0, 1) == [500.0]
    ensures Series(ThreeRows, Spending, 0, 1) == [200.0]
  {
    var rows := ThreeRows;
    var r0, r1 := rows[..1], rows[..2];
    assert r0 == [] + [rows[0]] && r1 == r0 + [rows[1]] && rows == r1 + [rows[2]];
    assert Classify(rows[0].subType) == Income;
    assert Classify(rows[1].subType) == Spending;
    assert Classify(rows[2].subType) == Income;
    Step([], rows[0]);
    Step(r0, rows[1]);
    Step(r1, rows[2]);
    assert DayTotal(rows, Income, 0) == 500.0 && DayTotal(rows, Spending, 0) == 200.0;
  }

  /** A single row of an unknown sub-type is only counted. */
  lemma UnknownSubType()
    ensures var rows := [Row(0, "Bizarre Type", 50.0)];
      && CashOnHand(rows) == 0.0
      && FundsReceived(rows) == 0.0
      && Composition(rows) == map[]
      && UntrackedCounts(rows) == map["Bizarre Type" := 1]
  {
    var rows := [Row(0, "Bizarre Type", 50.0)];
    assert rows == [] + [rows[0]];
    Step([], rows[0]);
  }
}
