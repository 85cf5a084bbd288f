# Campaign-finance ledger analysis, modelled in Dafny

`process_xls.py` reads an ORESTAR campaign-finance ledger. Each row has a
transaction date, a sub-type label and an amount. The script classifies every
row with a hard-coded taxonomy: +1 means income, -1 means spending, and any
other label is untracked. One pass over the rows updates these accumulators:

- two running totals: cash on hand and total funds received;
- two daily arrays, income per day and spending per day, over a timeline that
  runs from the first transaction date up to, but excluding, the last one;
- two dictionaries: income per income label (the funding composition) and a
  row count per untracked label.

After the pass, the script turns each income label's total into a percentage
of the funds received.

The model has six modules.

- `Taxonomy` (`taxonomy.dfy`) holds the label-to-sign table, copied
  verbatim, including the misspelled key "Forgiveen Account Payable". It also
  holds `Classify`, the script's dispatch.
- `Calendar` (`timeline.dfy`) has the half-open day range that `np.arange`
  builds. It also has `Where`, the index search of `np.where(timeline == d)`.
- `MapSums` (`map_sums.dfy`) defines the sum of a dictionary's values, which
  does not depend on key order.
- `Ledger` (`ledger.dfy`) states what each accumulator holds after the pass,
  as a fold over the rows in ledger order. The lemmas in it give those folds
  their meaning:
  - cash conservation;
  - the composition sums to the funds received;
  - the daily series cover every amount except those on the last date;
  - no result depends on row order.
- `Percentages` (`percentages.dfy`) has the percentage loop and its laws.
- `Aggregation` (`aggregation.dfy`) holds the accumulators as a class:
  - `Ingest` is one pass of the row loop, and updates the fields and the two
    daily arrays in place;
  - `AddAt` is numpy's `a[idx] += n`;
  - `IngestAll` is the loop itself;
  - `ProcessLedger` is the whole run.

  Each method is proved against the `Ledger` functions.

Dates are integer day numbers, amounts are `real`, and labels are strings.

In these edge cases the model follows the code:

- A row whose date has no slot on the timeline is not an error. The code's
  `np.where` returns an empty index, and the daily-array update does nothing.
  The running totals and the composition still count the row. Rows dated on
  the last date are always in this case, because the range excludes its end
  point.
- Negative amounts are not rejected. The code never checks the sign of an
  amount. The lemmas that need non-negative amounts say so in their `requires`.
- A ledger with no income rows has an empty funding composition. The code's
  percentage loop then runs zero times and divides by nothing, so the model
  returns an empty percentage map, not an error. Only a non-empty composition
  over a zero total is an error (`NoIncomeRecorded`). The rows that
  `iterrows()` yields mix the string sub-type with the numbers, so the amounts
  and the funds received are plain Python numbers. The division at line 80
  then raises `ZeroDivisionError`, and the script stops before it plots
  anything. `NoIncomeRecorded` stands for that crash, so `ProcessLedger`
  failing the whole run matches the code.
- An empty ledger gives `EmptyLedger`. In the code, the minimum and maximum of
  an empty date column are undefined, and the timeline cannot be built.

## Model

| member | source | states |
|---|---|---|
| Taxonomy.ClassifyByLabels | process_xls.py:16-34 | a label is income exactly when it is one of the eleven +1 labels, spending exactly when it is one of the six -1 labels, and untracked exactly when it is neither |
| Taxonomy.TaxonomyShape | process_xls.py:16-34 | the table's keys are exactly the eleven income labels and the six spending labels, and the two groups are disjoint |
| Taxonomy.TaxonomySigns | process_xls.py:17-33 | every income label has sign +1 and every spending label sign -1 |
| Taxonomy.TaxonomySize | process_xls.py:17-33 | there are eleven distinct income labels and six distinct spending labels |
| Taxonomy.SignsAreUnit | process_xls.py:61-64 | a label found in the table has sign +1 or -1, so the two-way branch on the sign is exhaustive |
| Taxonomy.CorrectSpellingIsUntracked | process_xls.py:22 | the misspelled key is income, and the correctly spelled "Forgiven Account Payable" is untracked |
| Calendar.Timeline | process_xls.py:46 | the timeline has end - start slots (none when end <= start), and slot i holds day start + i |
| Calendar.Where | process_xls.py:58 | the result lists, in increasing order, exactly the positions at which the timeline holds the day |
| Calendar.WhereOnTimeline | process_xls.py:46-58 | on the timeline, a day in [start, end) has the single slot day - start, and any other day has no slot |
| Calendar.TimelineDays | process_xls.py:46 | a day is on the timeline exactly when it lies in [start, end) |
| Calendar.EndDayHasNoSlot | process_xls.py:45-46 | the last date is not on the timeline, and its slot search is empty |
| Ledger.MinDate | process_xls.py:44 | the start date is some row's date and no row is earlier |
| Ledger.MaxDate | process_xls.py:45 | the end date is some row's date and no row is later |
| Ledger.DateRange | process_xls.py:44-45 | every row is dated between the start date and the end date |
| Ledger.Step | process_xls.py:55-77 | appending a row moves cash on hand by its signed amount, each kind total and each day total by its part, and each dictionary by that row's update |
| Ledger.RowEffect | process_xls.py:61-77 | income rows add their amount to cash, funds received and their label's composition entry (new entries start at the amount); spending rows subtract from cash and leave the income accumulators alone; untracked rows change only their label's counter (new counters start at one) |
| Ledger.SignedAmountByKind | process_xls.py:62-72 | a row's effect on cash on hand is its income amount minus its spending amount |
| Ledger.CashConservation | process_xls.py:55-72 | final cash on hand equals the funds received minus the total of all spending amounts |
| Ledger.CompositionAt | process_xls.py:64-70 | the composition holds exactly the income labels that occur in the ledger, each with the sum of its rows' amounts |
| Ledger.UntrackedAt | process_xls.py:73-77 | the untracked counter holds exactly the untracked labels that occur, each with its number of rows |
| Ledger.CompositionSum | process_xls.py:64-70 | the composition's values add up to the funds received |
| Ledger.TotalPermutation | process_xls.py:55-77 | any sum over the rows is the same for every reordering of the rows |
| Ledger.OrderIndependence | process_xls.py:44-77 | cash on hand, the kind totals, the daily series, both dictionaries and the date range are the same for every reordering of the ledger |
| Ledger.TotalsReorder | process_xls.py:55-72 | the running totals and the daily series do not depend on row order |
| Ledger.MapsReorder | process_xls.py:64-77 | the composition and the untracked counter do not depend on row order |
| Ledger.DatesReorder | process_xls.py:44-45 | the start and end dates do not depend on row order |
| Ledger.SeriesSum | process_xls.py:46-72 | the daily series over n days from start adds up to the amounts dated in [start, start + n) |
| Ledger.SeriesMissesLastDay | process_xls.py:44-72 | the daily series over [start date, end date) plus the amounts dated on the end date give exactly that kind's total |
| Ledger.SeriesMissesEnd | process_xls.py:46-72 | when every row is dated in [lo, hi], the series over [lo, hi) misses exactly the amounts dated hi |
| Ledger.KindTotalSplit | process_xls.py:46-72 | when every row is dated in [lo, hi], a kind's total is its amounts dated in [lo, hi) plus those dated hi |
| Ledger.IncomeSeriesBound | process_xls.py:44-72 | with non-negative amounts, the daily income series sums to at most the funds received, and to exactly that when no income row is dated on the end date |
| Ledger.SlotsFormSeries | process_xls.py:46-72 | slots that each hold their own day's total, over consecutive days from start, form the daily series |
| Ledger.ThreeRowDates | process_xls.py:44-46 | for a contribution and an expenditure on day 0 and a loan on day 1, the dates span 0 to 1 |
| Ledger.ThreeRowTotals | process_xls.py:55-77 | for that ledger, cash on hand is 1300, funds received 1500, the composition is {contribution: 500, loan: 1000}, and nothing is untracked |
| Ledger.ThreeRowSeries | process_xls.py:46-72 | for that ledger, the one-day income series is [500] (the loan on the end date is missing) and the spending series is [200] |
| Ledger.UnknownSubType | process_xls.py:73-77 | a single row with an unknown label leaves cash and funds at zero and the composition empty, and counts the label once |
| Percentages.FundingPercentages | process_xls.py:79-80 | fails with NoIncomeRecorded exactly when the composition is non-empty and the total is zero; otherwise it gives every composition key, and only those, the percentage 100 * (value / total) |
| Percentages.PercentagesSum | process_xls.py:79-80 | percentages of a total add up to 100 times the share of the summed values in that total |
| Percentages.CompositionNonnegative | process_xls.py:64-70 | with non-negative amounts every composition value is non-negative |
| Percentages.LedgerPercentagesSum | process_xls.py:64-80 | over a ledger with non-zero funds received, the funding percentages add up to exactly 100 |
| Percentages.LedgerPercentagesRange | process_xls.py:64-80 | with non-negative amounts and non-zero funds received, every funding percentage lies in [0, 100] |
| Aggregation.AddAt | process_xls.py:66 | each listed slot grows by n, no other slot changes, and an empty index list changes nothing |
| Aggregation.Aggregator.constructor | process_xls.py:37-52 | the timeline covers [start, end) and excludes the end date; both daily arrays are all zero and as long as the timeline; the totals are zero and both dictionaries are empty, which is the state of an empty ledger |
| Aggregation.Aggregator.Ingest | process_xls.py:55-77 | one row moves cash on hand by its signed amount and the funds received by its income amount, applies that row's update to both dictionaries, and adds the row's amount to the income or spending slot whose day is the row's date; a row with no slot leaves both arrays unchanged |
| Aggregation.Aggregator.IngestAll | process_xls.py:55-77 | after the loop, every accumulator holds the ledger's fold: cash on hand, funds received, composition, untracked counts and each day's income and spending totals |
| Aggregation.ProcessLedger | process_xls.py:44-80 | fails with EmptyLedger exactly on an empty ledger and with NoIncomeRecorded exactly when the composition is non-empty over zero funds received; otherwise it reports the timeline [start date, end date), both daily series, both totals, both dictionaries and the percentages of the composition |

## Left out

- Reading the spreadsheet path from the command line and loading it with pandas (lines 9-12): this is file I/O. The model takes the ledger as a sequence of rows.
- Converting dates with pandas and building a `datetime64[D]` range (lines 44-46, 57): dates are integer day numbers. Only the half-open `[min, max)` range is kept.
- Scaling the daily arrays by 1000 and plotting (lines 82-95): this is display only.
- Floating-point rounding: amounts and percentages are exact reals. The `ZeroDivisionError` that line 80 raises for a non-empty composition over a zero total becomes the error `NoIncomeRecorded`.
- Insertion order of the Python dictionaries: Dafny maps are unordered. No result of the script depends on that order.
- Missing or non-numeric cells in the spreadsheet (pandas NaN amounts or dates): rows are always well formed in the model.
- Aggregation.AddAt: models numpy's `a[idx] += n` only for index arrays without repeats. That is what `np.where` always returns, so repeated indices are never passed.
