# Revenue reconciliation engine: a Dafny model

This project models the core of the revenue reconciliation engine: a two-stage batch that
compares three records of the same revenue and explains the differences.

* **Stage 1, `src/reconcile_mvp.py`** (`reconcile.dfy`). The billing invoices, the recognized
  revenue (ERP) and the warehouse sales events are each summed per (contract, customer,
  calendar month). The ERP keys form the spine. Billing and warehouse totals are left-merged
  onto them and zero-filled. Each row then gets its signed and absolute variances and a
  variance type from a first-match-wins rule waterfall (missing invoice, warehouse
  overcount/undercount, FX mismatch, timing difference, OK). The row is joined to the customer
  dimension, and its leakage is ERP minus billing, clipped at zero. Two summaries follow: the
  CFO summary (rows and leakage per variance type, by leakage descending) and the 15
  customers with the most leakage.
* **Stage 2, `src/variance_drilldown.py`** (`drilldown.dfy`). Every row of the variance table
  gets a variance percentage, a materiality flag, a suspected root cause, an owner, an action
  and a priority. The table is then sorted by priority ascending and leakage descending.
* `group_by.dfy` holds the pandas `groupby(...).agg(count, sum)` and
  `sort_values(..., ascending=False)` of stage 1. The group-by is used three times: for the
  monthly totals, the CFO summary and the top customers. The sort is used twice: for the CFO
  summary and the top customers. The group-by is a loop over the key and value
  columns, proved against `Summarizes`: one group per distinct key, holding that key's row
  count and value sum. The drilldown sort of stage 2 is its own (`Drilldown.BuildDrilldown`).
* `strings.dfy` holds Python's `str.startswith` and Python's string order `<`. The order is
  proved irreflexive, asymmetric, transitive and total. `wrappers.dfy` holds `Option`, which
  models NaN.

Amounts are exact `real`s. A date is (year, month, day), and its month key is (year, month).
The customer dimension is a map from `customer_id`, because the customer id is unique.
`variance_pct` is `None` (NaN) when billing is not positive. A NaN percentage never makes a
row material, because a NaN comparison is false.

The drilldown sorts the priority column as strings, and Python orders "High" < "Low" <
"Medium". So the rows come out High, then Low, then Medium, which is not severity order
(`Drilldown.PriorityLexicalOrder`, `Drilldown.SortedDrilldownOrder`).

An "OK" row is guaranteed to leak at most `max(1, 0.03 * billing)` only when billing is not negative. With
billing and warehouse both at -5000 and ERP at 0, the row is classified "OK" yet leaks 5000
(`Reconcile.OkWithNegativeBillingCanLeak`). Negative billing sums (credits) are not excluded
by the code, so this is recorded as a property of the rules rather than as a defect.

## Model

| member | source | states |
|---|---|---|
| GroupBy.Aggregate | src/reconcile_mvp.py:16 | the group-by has exactly one group per distinct key; each group holds its key's row count and value sum; the counts add up to the row count and the sums to the column total |
| GroupBy.SortDesc | src/reconcile_mvp.py:64 | the result is non-increasing by total and a permutation of the input; it keeps distinct keys, the total count and the total sum |
| GroupBy.SummarizesPermutation | src/reconcile_mvp.py:61-65 | reordering a group-by result with distinct keys leaves it the group-by of the same columns |
| GroupBy.Find | src/reconcile_mvp.py:31-32 | the merge lookup finds a group exactly when the key is present, and the group it returns carries that key |
| GroupBy.TotalOrZeroIsSum | src/reconcile_mvp.py:30-36 | a left merge followed by `fillna(0.0)` yields the key's sum over the source rows, and 0.0 when the source has no row with that key |
| GroupBy.PrefixDominates | src/reconcile_mvp.py:70-71 | after a descending sort, a group outside the first n never has a larger total than a group inside them |
| Reconcile.MonthlyTotals | src/reconcile_mvp.py:14-27 | per (contract, customer, month) key there is one group, whose total is the sum of that key's events |
| Reconcile.MonthlySumAppend | src/reconcile_mvp.py:16 | one more event changes only its own key's monthly sum, and by exactly its amount |
| Reconcile.MonthlySumSplit | src/reconcile_mvp.py:14-27 | monthly sums are additive over any split of a stream, so event order does not matter |
| Reconcile.DuplicateEventsSummed | src/reconcile_mvp.py:24-26 | a duplicated event is counted twice, not deduplicated |
| Reconcile.LabelInjective | src/reconcile_mvp.py:46-54 | the six labels are distinct, and every label is one of the six |
| Reconcile.ClassifyRules | src/reconcile_mvp.py:46-54 | each of the six labels is chosen if and only if its own condition holds and the earlier rules fail; the FX/timing split is at a gap of 5 % of billing |
| Reconcile.FxNeedsBillingAboveTwenty | src/reconcile_mvp.py:51-53 | an FX mismatch is possible only when billing is above 20 |
| Reconcile.ThresholdIsStrict | src/reconcile_mvp.py:49-54 | with billing above EPS, gaps up to and including the tolerance `max(EPS, 0.03 * billing)` are classified OK |
| Reconcile.ClassifyScenarios | src/reconcile_mvp.py:46-54 | the worked cases: missing invoice for any warehouse value, OK on agreement, OK at 10300 / FX at 10301 against 10000, undercount at 7000 |
| Reconcile.MakeRow | src/reconcile_mvp.py:38-59 | the row carries its key, the three amounts and the customer's name and segment, and its variance, absolute variance, label and leakage columns agree with the amounts |
| Reconcile.LeakageFacts | src/reconcile_mvp.py:59 | leakage is non-negative, at least the signed variance, positive exactly when ERP exceeds billing, and at most the absolute variance |
| Reconcile.MissingInvoiceLeaks | src/reconcile_mvp.py:47-48 | ERP above EPS with billing at most EPS is a missing invoice whatever the warehouse holds, and the row leaks ERP minus billing, which is positive |
| Reconcile.MissingInvoiceLabelLeaks | src/reconcile_mvp.py:47-48 | conversely, a row labelled missing invoice has ERP above EPS, billing at most EPS and positive leakage |
| Reconcile.OkLeakageBounded | src/reconcile_mvp.py:46-59 | with non-negative billing, an OK row leaks at most the tolerance |
| Reconcile.OkWithNegativeBillingCanLeak | src/reconcile_mvp.py:46-59 | the row for ERP 0 with billing and warehouse at -5000 is labelled OK, leaks 5000 and so leaks beyond its tolerance |
| Reconcile.ReconciledRows | src/reconcile_mvp.py:29-41 | the rows have distinct keys, exactly the ERP keys, consistent columns, the customer's name and segment, and the three monthly sums (0.0 for a source without events for the key) |
| Reconcile.CfoByType | src/reconcile_mvp.py:61-65 | one entry per variance type with its row count and summed leakage, sorted by leakage descending; the counts add up to the row count and the leakages to the total |
| Reconcile.TopCustomers | src/reconcile_mvp.py:67-72 | at most 15 distinct named customers, each with their summed leakage, descending; a customer left out never leaks more than one kept; fewer than 15 means nobody was left out |
| Reconcile.RunReconciliation | src/reconcile_mvp.py:13-72 | the whole stage: one row per distinct ERP key and no other, each row with its monthly sums and consistent columns, plus both summaries with their guarantees |
| Drilldown.VariancePct | src/variance_drilldown.py:15-19 | the percentage is defined exactly when billing is positive, and then it times billing gives the ERP-over-billing variance |
| Drilldown.MaterialityOnAmounts | src/variance_drilldown.py:22-26 | a row is material if and only if it leaks at least 500, or billing is positive and the absolute variance is at least 10 % of billing |
| Drilldown.MaterialityMonotone | src/variance_drilldown.py:22-26 | at the same percentage, more leakage never makes a material row immaterial |
| Drilldown.RouteMissingInvoice | src/variance_drilldown.py:31-73 | the missing-invoice label gets its own root cause, Billing / RevOps as owner and the reissue action, none of them a default |
| Drilldown.RouteDwhOvercount | src/variance_drilldown.py:31-73 | the overcount label gets the duplicate-events cause, Data Engineering and the deduplication action |
| Drilldown.RouteDwhUndercount | src/variance_drilldown.py:31-73 | the undercount label fails the "DWH Duplicate" test, and gets the late-ingestion cause, Data Engineering and the backfill action |
| Drilldown.RouteFxMismatch | src/variance_drilldown.py:31-73 | the FX label gets the FX-source cause, Finance / Accounting and the lock-FX action |
| Drilldown.RouteTimingDifference | src/variance_drilldown.py:31-73 | the timing label gets the cutoff cause, Finance / RevRec and the cutoff-review action |
| Drilldown.RouteOk | src/variance_drilldown.py:31-73 | "OK" fails every test and gets the three defaults |
| Drilldown.MissingInvoiceMatchedExactly | src/variance_drilldown.py:31-73 | for every string, the missing-invoice root cause, owner and action each come out exactly when the string is the missing-invoice label |
| Drilldown.MissingInvoiceNearMisses | src/variance_drilldown.py:31-73 | a shorter or padded variant of the missing-invoice label falls through to the default root cause, owner and action |
| Drilldown.Priority | src/variance_drilldown.py:81-86 | High if and only if material and leaking at least 2000; Medium if and only if material and leaking less; Low if and only if immaterial |
| Drilldown.Enrich | src/variance_drilldown.py:15-88 | enrichment keeps the variance-table row unchanged underneath the new columns |
| Drilldown.WorkedCases | src/variance_drilldown.py:15-88 | a 10000 missing invoice is material and High; a row on which all three systems agree at 10000 has percentage 0 and is immaterial and Low |
| Drilldown.EnrichedPriorities | src/variance_drilldown.py:81-86 | every enriched priority is High, Low or Medium |
| Drilldown.InsertAt | src/variance_drilldown.py:111-113 | insertion keeps the placed rows in their order and puts the new row at position `Pos`, after the longest prefix of rows that may precede it |
| Drilldown.PosBounds | src/variance_drilldown.py:111-113 | every row before `Pos` may precede the new row, and the row at `Pos`, if any, may not |
| Drilldown.InsertPlacement | src/variance_drilldown.py:111-113 | into a sorted table, the new row goes after exactly the rows that may precede it, tied rows included, and before all others; since rows are inserted in input order, tied rows keep their input order |
| Drilldown.BuildDrilldown | src/variance_drilldown.py:111-113 | the output is sorted by (priority ascending as strings, leakage descending); the rows underneath are a permutation of the input; every row carries its own enrichment |
| Drilldown.PriorityLexicalOrder | src/variance_drilldown.py:111-113 | Python orders the priorities High < Low < Medium |
| Drilldown.SortedDrilldownOrder | src/variance_drilldown.py:111-113 | a sorted drilldown lists all High rows, then all Low, then all Medium, with leakage non-increasing within a priority |

## Left out

- File input and output, directory creation and printing (`src/reconcile_mvp.py` lines 4-11 and 74-80; `src/variance_drilldown.py` lines 5-10 and 115-123) are outside the model. The stages take and return values.
- The column projection `cols` (`src/variance_drilldown.py` lines 93-109) is not modelled: a drilldown row keeps the whole variance-table row.
- Floating point: amounts, tolerances and percentages are exact reals, so float rounding in sums and divisions is not captured.
- Date handling: parsing and `to_period("M").dt.to_timestamp()` are reduced to keeping (year, month). Date validity is not constrained.
- Row order of group-by results: pandas sorts group keys, while `GroupBy.Aggregate` keeps first-appearance order. The variance table therefore follows the ERP groups in that order. No contract depends on it.
- Tie order of the single-column sorts (`src/reconcile_mvp.py` lines 64 and 70): pandas' default quicksort keeps no tie order, and `GroupBy.SortDesc` puts a later group with an equal total before an earlier one, so no contract states how equal totals are ordered. For the same reason, `Reconcile.TopCustomers` does not say which of several equally leaking customers survive `head(15)`. The two-key drilldown sort is stable in pandas, and `Drilldown.Insert` is stable too (`Drilldown.InsertPlacement`), though `Drilldown.BuildDrilldown`'s own contract does not restate it.
- Customer dimension: modelled as a map from a unique `customer_id`. A duplicated id, which would duplicate rows in the merge at line 58, is not modelled.
- `cfo_by_type` counts `contract_id`, which is never null, so its count is modelled as the number of rows.
- Reconcile.OkLeakageBounded: requires billing >= 0, because the bound does not hold for negative billing sums; `Reconcile.OkWithNegativeBillingCanLeak` shows the counterexample.
- Reconcile.RunReconciliation: states only the size, order and per-customer sums of the top customers; the rest of their guarantees are those of `Reconcile.TopCustomers`.
- The dashboard (`dashboard/app.py`) and the synthetic data generator (`src/generate_data.py`) are not part of this model.
