/**
 * Stage 1 of the pipeline (src/reconcile_mvp.py): the three event streams are summed per
 * (contract, customer, calendar month), joined onto the recognized-revenue (ERP) keys,
 * zero-filled, given their variance columns, classified by the rule waterfall, joined to
 * the customer dimension and summarised for the CFO.
 */
module Reconcile {
  import opened Wrappers
  import opened GroupBy

  /** Differences of at most one dollar are rounding noise. */
  const EPS: real := 1.0

  /** `top_customers` keeps this many customers. */
  const TopCustomerCount: nat := 15

  datatype Date = Date(year: int, month: int, day: int)

  /** A calendar month: what `.dt.to_period("M").dt.to_timestamp()` keeps of a date. */
  datatype Month = Month(year: int, month: int)

  function MonthOf(d: Date): Month
  {
    Month(d.year, d.month)
  }

  /**
   * A row of billing_invoices (invoice_date, amount_usd), erp_revenue (revenue_date,
   * revenue_usd) or dw_sales (event_date, gross_usd): the three streams have one shape.
   */
  datatype Event = Event(contractId: int, customerId: int, date: Date, amountUsd: real)

  /** The reconciliation key (contract_id, customer_id, month). */
  datatype Key = Key(contractId: int, customerId: int, month: Month)

  function KeyOf(e: Event): Key
  {
    Key(e.contractId, e.customerId, MonthOf(e.date))
  }

  function EventKeys(es: seq<Event>): (ks: seq<Key>)
    ensures |ks| == |es|
  {
    seq(|es|, i requires 0 <= i < |es| => KeyOf(es[i]))
  }

  function Amounts(es: seq<Event>): (vs: seq<real>)
    ensures |vs| == |es|
  {
    seq(|es|, i requires 0 <= i < |es| => es[i].amountUsd)
  }

  /** A source's amount for a key: the sum over its events of that contract and customer dated in that month. */
  function MonthlySum(es: seq<Event>, k: Key): real
  {
    SumOf(EventKeys(es), Amounts(es), k)
  }

  /** Adding one event changes only its own key's monthly sum, by exactly its amount. */
  lemma MonthlySumAppend(es: seq<Event>, e: Event, k: Key)
    ensures MonthlySum(es + [e], k) == MonthlySum(es, k) + (if KeyOf(e) == k then e.amountUsd else 0.0)
  {
    var es' := es + [e];
    assert EventKeys(es')[..|es|] == EventKeys(es);
    assert Amounts(es')[..|es|] == Amounts(es);
  }

  /** Monthly sums are additive over batches of events, so row order within a stream is irrelevant. */
  lemma {:induction false} MonthlySumSplit(a: seq<Event>, b: seq<Event>, k: Key)
    ensures MonthlySum(a + b, k) == MonthlySum(a, k) + MonthlySum(b, k)
  {
    if |b| == 0 {
      assert a + b == a;
      assert MonthlySum(b, k) == 0.0;
    } else {
      var b', e := b[..|b| - 1], b[|b| - 1];
      assert b == b' + [e];
      assert a + b == (a + b') + [e];
      MonthlySumSplit(a, b', k);
      MonthlySumAppend(a + b', e, k);
      MonthlySumAppend(b', e, k);
    }
  }

  /** Duplicate events are summed, not rejected: the same event twice counts twice. */
  lemma DuplicateEventsSummed(es: seq<Event>, e: Event)
    ensures MonthlySum(es + [e, e], KeyOf(e)) == MonthlySum(es, KeyOf(e)) + 2.0 * e.amountUsd
  {
    assert es + [e, e] == (es + [e]) + [e];
    MonthlySumAppend(es, e, KeyOf(e));
    MonthlySumAppend(es + [e], e, KeyOf(e));
  }

  /**
   * `groupby(["contract_id", "customer_id", "month"]).sum()` on one stream after truncating
   * its dates to the month: one group per key present, holding that key's monthly sum.
   */
  method MonthlyTotals(es: seq<Event>) returns (m: seq<Group<Key>>)
    ensures Summarizes(m, EventKeys(es), Amounts(es))
    ensures forall g :: g in m ==> g.total == MonthlySum(es, g.key)
  {
    m := Aggregate(EventKeys(es), Amounts(es));
  }

  function Abs(x: real): real
  {
    if x < 0.0 then -x else x
  }

  function Max(a: real, b: real): real
  {
    if a >= b then a else b
  }

  /** The mismatch tolerance `max(EPS, 0.03 * billing_usd)`. */
  function Tolerance(billing: real): real
  {
    Max(EPS, 0.03 * billing)
  }

  /** The six labels of the variance-type column. */
  datatype VarianceType =
    | MissingInvoice
    | DwhOvercount
    | DwhUndercount
    | FxMismatch
    | TimingDifference
    | Ok
  {
    function Label(): string
    {
      match this
      case MissingInvoice => "Missing Invoice (Billing)"
      case DwhOvercount => "DWH Duplicate / Overcount"
      case DwhUndercount => "DWH Undercount / Missing Events"
      case FxMismatch => "FX Mismatch (ERP vs Billing)"
      case TimingDifference => "Timing Difference (RevRec)"
      case Ok => "OK"
    }
  }

  const VarianceLabels: set<string> := {
    "Missing Invoice (Billing)", "DWH Duplicate / Overcount", "DWH Undercount / Missing Events",
    "FX Mismatch (ERP vs Billing)", "Timing Difference (RevRec)", "OK"
  }

  /** Different variance types never share a label, and every label is one of the six. */
  lemma LabelInjective(t: VarianceType, u: VarianceType)
    ensures t.Label() in VarianceLabels
    ensures t.Label() == u.Label() ==> t == u
  {
  }

  /**
   * `classify`: the first-match-wins rule waterfall. Missing invoice first, then a
   * billing/warehouse mismatch, then an ERP/billing mismatch split into FX noise (a gap
   * of at most 5 % of billing) and timing, else OK.
   */
  function Classify(erp: real, billing: real, dw: real): VarianceType
  {
    var absBillingVsDw := Abs(billing - dw);
    var absErpVsBilling := Abs(erp - billing);
    if erp > EPS && billing <= EPS then MissingInvoice
    else if billing > EPS && absBillingVsDw > Tolerance(billing) then
      if dw > billing then DwhOvercount else DwhUndercount
    else if billing > EPS && absErpVsBilling > Tolerance(billing) then
      var pct := absErpVsBilling / Max(billing, EPS);
      if pct <= 0.05 then FxMismatch else TimingDifference
    else Ok
  }

  /**
   * The waterfall as six independent conditions, one per label: each label is chosen
   * exactly when its own condition holds, the earlier rules' conditions failing.  The FX
   * test is stated without the division, as a gap of at most 5 % of billing.
   */
  lemma ClassifyRules(erp: real, billing: real, dw: real)
    ensures var t, gapDw, gapErp, tol := Classify(erp, billing, dw), Abs(billing - dw), Abs(erp - billing), Tolerance(billing);
      && (t == MissingInvoice <==> erp > EPS && billing <= EPS)
      && (t == DwhOvercount <==> billing > EPS && gapDw > tol && dw > billing)
      && (t == DwhUndercount <==> billing > EPS && gapDw > tol && dw < billing)
      && (t == FxMismatch <==> billing > EPS && gapDw <= tol && tol < gapErp <= 0.05 * billing)
      && (t == TimingDifference <==> billing > EPS && gapDw <= tol && gapErp > tol && gapErp > 0.05 * billing)
      && (t == Ok <==> (billing <= EPS && erp <= EPS) || (billing > EPS && gapDw <= tol && gapErp <= tol))
  {
    if billing > EPS {
      var gapErp := Abs(erp - billing);
      assert Max(billing, EPS) == billing;
      assert gapErp / billing <= 0.05 <==> gapErp <= 0.05 * billing by {
        assert (gapErp / billing) * billing == gapErp;
      }
    }
  }

  /** An FX mismatch needs billing above 20: the gap exceeds one dollar yet stays within 5 % of billing. */
  lemma FxNeedsBillingAboveTwenty(erp: real, billing: real, dw: real)
    requires Classify(erp, billing, dw) == FxMismatch
    ensures billing > 20.0
  {
    ClassifyRules(erp, billing, dw);
  }

  /** The tolerance tests are strict: gaps up to and including `max(EPS, 0.03 * billing)` are no mismatch. */
  lemma ThresholdIsStrict(erp: real, billing: real, dw: real)
    requires billing > EPS && Abs(billing - dw) <= Tolerance(billing) && Abs(erp - billing) <= Tolerance(billing)
    ensures Classify(erp, billing, dw) == Ok
  {
    ClassifyRules(erp, billing, dw);
  }

  /** Customer dimension row; `customer_id` is unique, so the dimension is a map from it. */
  datatype Customer = Customer(name: string, segment: string)

  /** A row of the variance table. */
  datatype ReconRow = ReconRow(
    key: Key,
    erpUsd: real,
    billingUsd: real,
    dwUsd: real,
    varErpVsBilling: real,
    varBillingVsDw: real,
    absErpVsBilling: real,
    absBillingVsDw: real,
    varianceType: string,
    customerName: Option<string>,
    segment: Option<string>,
    leakageUsd: real)

  /** The column invariants of the variance table. */
  predicate WellFormed(r: ReconRow)
  {
    && r.varErpVsBilling == r.erpUsd - r.billingUsd
    && r.varBillingVsDw == r.billingUsd - r.dwUsd
    && r.absErpVsBilling == Abs(r.varErpVsBilling)
    && r.absBillingVsDw == Abs(r.varBillingVsDw)
    && r.varianceType == Classify(r.erpUsd, r.billingUsd, r.dwUsd).Label()
    && r.leakageUsd == Max(r.varErpVsBilling, 0.0)
  }

  /** customer_name and segment come from the customer dimension, and are NaN when it has no such customer. */
  predicate CustomerColumns(r: ReconRow, customers: map<int, Customer>)
  {
    && (r.customerName == if r.key.customerId in customers then Some(customers[r.key.customerId].name) else None)
    && (r.segment == if r.key.customerId in customers then Some(customers[r.key.customerId].segment) else None)
  }

  /**
   * The columns of a row once its three amounts are known: the signed and absolute
   * variances, the label, the customer columns and the leakage (`clip(lower=0)`).
   */
  function MakeRow(k: Key, erp: real, billing: real, dw: real, customer: Option<Customer>): (r: ReconRow)
    ensures r.key == k && r.erpUsd == erp && r.billingUsd == billing && r.dwUsd == dw
    ensures r.customerName == (if customer.Some? then Some(customer.value.name) else None)
    ensures r.segment == (if customer.Some? then Some(customer.value.segment) else None)
    ensures WellFormed(r)
  {
    var varErpVsBilling := erp - billing;
    var varBillingVsDw := billing - dw;
    ReconRow(
      k, erp, billing, dw,
      varErpVsBilling, varBillingVsDw, Abs(varErpVsBilling), Abs(varBillingVsDw),
      Classify(erp, billing, dw).Label(),
      if customer.Some? then Some(customer.value.name) else None,
      if customer.Some? then Some(customer.value.segment) else None,
      Max(varErpVsBilling, 0.0))
  }

  /** The row for one ERP key: billing and warehouse merged on the key and zero-filled, the customer looked up. */
  function ReconRowFor(erp: Group<Key>, billingM: seq<Group<Key>>, dwM: seq<Group<Key>>, customers: map<int, Customer>): ReconRow
  {
    var k := erp.key;
    var customer := if k.customerId in customers then Some(customers[k.customerId]) else None;
    MakeRow(k, erp.total, TotalOrZero(billingM, k), TotalOrZero(dwM, k), customer)
  }

  /** The variance table: one row per ERP group, in the ERP groups' order (ERP is the spine). */
  function Reconciled(erpM: seq<Group<Key>>, billingM: seq<Group<Key>>, dwM: seq<Group<Key>>, customers: map<int, Customer>): seq<ReconRow>
  {
    seq(|erpM|, i requires 0 <= i < |erpM| => ReconRowFor(erpM[i], billingM, dwM, customers))
  }

  function RowKeys(rows: seq<ReconRow>): seq<Key>
  {
    seq(|rows|, i requires 0 <= i < |rows| => rows[i].key)
  }

  /**
   * Leakage is the positive part of ERP minus billing: never negative, at least the
   * signed variance, and positive exactly when ERP exceeds billing.
   */
  lemma LeakageFacts(r: ReconRow)
    requires WellFormed(r)
    ensures r.leakageUsd >= 0.0 && r.leakageUsd >= r.varErpVsBilling
    ensures r.leakageUsd == 0.0 || r.leakageUsd == r.varErpVsBilling
    ensures r.leakageUsd > 0.0 <==> r.erpUsd > r.billingUsd
    ensures r.absErpVsBilling >= r.leakageUsd
  {
  }

  /** Recognized revenue above EPS with billing at most EPS is a missing invoice whatever the warehouse says, and it leaks. */
  lemma MissingInvoiceLeaks(r: ReconRow)
    requires WellFormed(r) && r.erpUsd > EPS && r.billingUsd <= EPS
    ensures r.varianceType == MissingInvoice.Label()
    ensures r.leakageUsd > 0.0 && r.leakageUsd == r.erpUsd - r.billingUsd
  {
  }

  /** Conversely a row labelled missing invoice always leaks more than zero. */
  lemma MissingInvoiceLabelLeaks(r: ReconRow)
    requires WellFormed(r) && r.varianceType == MissingInvoice.Label()
    ensures r.erpUsd > EPS && r.billingUsd <= EPS && r.leakageUsd > 0.0
  {
    LabelInjective(Classify(r.erpUsd, r.billingUsd, r.dwUsd), MissingInvoice);
    ClassifyRules(r.erpUsd, r.billingUsd, r.dwUsd);
  }

  /** With non-negative billing an "OK" row leaks at most the tolerance. */
  lemma OkLeakageBounded(r: ReconRow)
    requires WellFormed(r) && r.varianceType == Ok.Label() && r.billingUsd >= 0.0
    ensures r.leakageUsd <= Tolerance(r.billingUsd)
  {
    LabelInjective(Classify(r.erpUsd, r.billingUsd, r.dwUsd), Ok);
    ClassifyRules(r.erpUsd, r.billingUsd, r.dwUsd);
  }

  /**
   * The bound needs billing >= 0: with billing and warehouse both at -5000 (credits) and
   * no recognized revenue, the row is "OK" yet leaks 5000, far above its tolerance.
   */
  lemma OkWithNegativeBillingCanLeak(k: Key, customer: Option<Customer>)
    ensures var r := MakeRow(k, 0.0, -5000.0, -5000.0, customer);
      && r.varianceType == Ok.Label() && r.leakageUsd == 5000.0 && r.leakageUsd > Tolerance(r.billingUsd)
  {
  }

  /** The worked cases of the classifier, including both sides of the strict 3 % boundary. */
  lemma ClassifyScenarios(erp: real, dw: real)
    ensures Classify(10000.0, 0.0, dw) == MissingInvoice
    ensures Classify(10000.0, 10000.0, 10000.0) == Ok
    ensures Classify(10300.0, 10000.0, 10000.0) == Ok
    ensures Classify(10301.0, 10000.0, 10000.0) == FxMismatch
    ensures Classify(erp, 10000.0, 7000.0) == DwhUndercount
  {
  }

  function TypeColumn(rows: seq<ReconRow>): (ks: seq<string>)
    ensures |ks| == |rows|
  {
    seq(|rows|, i requires 0 <= i < |rows| => rows[i].varianceType)
  }

  function LeakageColumn(rows: seq<ReconRow>): (vs: seq<real>)
    ensures |vs| == |rows|
  {
    seq(|rows|, i requires 0 <= i < |rows| => rows[i].leakageUsd)
  }

  /**
   * `cfo_by_type`: per variance type, the number of rows and their summed leakage, by
   * leakage descending.  The counts add up to the row count and the sums to the total leakage.
   */
  method CfoByType(rows: seq<ReconRow>) returns (summary: seq<Group<string>>)
    ensures Summarizes(summary, TypeColumn(rows), LeakageColumn(rows))
    ensures SortedDesc(summary)
    ensures TotalCount(summary) == |rows| && TotalSum(summary) == Sum(LeakageColumn(rows))
  {
    var groups := Aggregate(TypeColumn(rows), LeakageColumn(rows));
    summary := SortDesc(groups);
    SummarizesPermutation(groups, summary, TypeColumn(rows), LeakageColumn(rows));
  }

  /** The `top_customers` grouping key (customer_id, customer_name). */
  datatype CustomerKey = CustomerKey(customerId: int, customerName: string)

  /** The customer key of every row that has a customer name; pandas drops NaN group keys. */
  function CustomerColumn(rows: seq<ReconRow>): (ks: seq<CustomerKey>)
  {
    if |rows| == 0 then []
    else
      var last := rows[|rows| - 1];
      CustomerColumn(rows[..|rows| - 1]) + (if last.customerName.Some? then [CustomerKey(last.key.customerId, last.customerName.value)] else [])
  }

  /** The leakage of the same rows, aligned with CustomerColumn. */
  function NamedLeakageColumn(rows: seq<ReconRow>): (vs: seq<real>)
    ensures |vs| == |CustomerColumn(rows)|
  {
    if |rows| == 0 then []
    else
      var last := rows[|rows| - 1];
      NamedLeakageColumn(rows[..|rows| - 1]) + (if last.customerName.Some? then [last.leakageUsd] else [])
  }

  /** A customer's leakage: the summed leakage of their rows. */
  function CustomerLeakage(rows: seq<ReconRow>, c: CustomerKey): real
  {
    SumOf(CustomerColumn(rows), NamedLeakageColumn(rows), c)
  }

  /**
   * `top_customers`: leakage summed per customer, by leakage descending, the first 15.  At
   * most 15 distinct customers come out, each with its summed leakage; a customer left out
   * never leaks more than one kept, and when fewer than 15 come out no customer was left out.
   */
  method TopCustomers(rows: seq<ReconRow>) returns (top: seq<Group<CustomerKey>>)
    ensures |top| <= TopCustomerCount
    ensures SortedDesc(top) && DistinctKeys(top)
    ensures forall g :: g in top ==> g.key in CustomerColumn(rows) && g.total == CustomerLeakage(rows, g.key)
    ensures |top| < TopCustomerCount ==> forall c :: c in CustomerColumn(rows) ==> c in Keys(top)
    ensures forall c, g :: c in CustomerColumn(rows) && c !in Keys(top) && g in top ==> CustomerLeakage(rows, c) <= g.total
  {
    var ks, vs := CustomerColumn(rows), NamedLeakageColumn(rows);
    var groups := Aggregate(ks, vs);
    var sorted := SortDesc(groups);
    SummarizesPermutation(groups, sorted, ks, vs);
    var n := if |sorted| < TopCustomerCount then |sorted| else TopCustomerCount;
    top := sorted[..n];
    forall g | g in top
      ensures g in sorted && g.key in ks
    {
      var p :| 0 <= p < n && top[p] == g;
      assert Keys(sorted)[p] == g.key;
    }
    assert Keys(top) == Keys(sorted)[..n];
    forall c, g | c in ks && c !in Keys(top) && g in top
      ensures CustomerLeakage(rows, c) <= g.total
    {
      var m :| 0 <= m < |sorted| && Keys(sorted)[m] == c;
      PrefixDominates(sorted, n, sorted[m], g);
    }
  }

  /**
   * The join of lines 29-41 and 56-59 over the monthly totals of the three streams: the
   * rows follow the ERP groups one to one, and each carries the monthly sums of its key.
   */
  lemma ReconciledRows(billing: seq<Event>, erp: seq<Event>, dw: seq<Event>,
                       billingM: seq<Group<Key>>, erpM: seq<Group<Key>>, dwM: seq<Group<Key>>,
                       customers: map<int, Customer>)
    requires Summarizes(billingM, EventKeys(billing), Amounts(billing))
    requires Summarizes(erpM, EventKeys(erp), Amounts(erp))
    requires Summarizes(dwM, EventKeys(dw), Amounts(dw))
    ensures var out := Reconciled(erpM, billingM, dwM, customers);
      && (forall i, j :: 0 <= i < j < |out| ==> out[i].key != out[j].key)
      && (forall k :: k in EventKeys(erp) <==> k in RowKeys(out))
      && (forall r :: r in out ==> WellFormed(r) && CustomerColumns(r, customers))
      && (forall r :: r in out ==> r.erpUsd == MonthlySum(erp, r.key))
      && (forall r :: r in out ==> r.billingUsd == MonthlySum(billing, r.key) && r.dwUsd == MonthlySum(dw, r.key))
      && (forall r :: r in out && r.key !in EventKeys(billing) ==> r.billingUsd == 0.0)
      && (forall r :: r in out && r.key !in EventKeys(dw) ==> r.dwUsd == 0.0)
  {
    var out := Reconciled(erpM, billingM, dwM, customers);
    assert RowKeys(out) == Keys(erpM);
    forall r | r in out
      ensures r.erpUsd == MonthlySum(erp, r.key)
      ensures r.billingUsd == MonthlySum(billing, r.key) && r.dwUsd == MonthlySum(dw, r.key)
      ensures r.key !in EventKeys(billing) ==> r.billingUsd == 0.0
      ensures r.key !in EventKeys(dw) ==> r.dwUsd == 0.0
    {
      var i :| 0 <= i < |out| && out[i] == r;
      assert erpM[i] in erpM;
      TotalOrZeroIsSum(billingM, EventKeys(billing), Amounts(billing), r.key);
      TotalOrZeroIsSum(dwM, EventKeys(dw), Amounts(dw), r.key);
    }
  }

  /**
   * The whole stage.  The variance table has exactly one row per distinct ERP key and no
   * other: billing- or warehouse-only keys never appear.  Each row carries the three
   * monthly sums (billing and warehouse read as 0.0 when the source has no events for the
   * key), consistent variance, label and leakage columns, and its customer's columns.
   */
  method RunReconciliation(billing: seq<Event>, erp: seq<Event>, dw: seq<Event>, customers: map<int, Customer>)
    returns (out: seq<ReconRow>, byType: seq<Group<string>>, top: seq<Group<CustomerKey>>)
    ensures forall i, j :: 0 <= i < j < |out| ==> out[i].key != out[j].key
    ensures forall k :: k in EventKeys(erp) <==> k in RowKeys(out)
    ensures forall r :: r in out ==> WellFormed(r) && CustomerColumns(r, customers)
    ensures forall r :: r in out ==>
      && r.erpUsd == MonthlySum(erp, r.key)
      && r.billingUsd == MonthlySum(billing, r.key)
      && r.dwUsd == MonthlySum(dw, r.key)
    ensures forall r :: r in out && r.key !in EventKeys(billing) ==> r.billingUsd == 0.0
    ensures forall r :: r in out && r.key !in EventKeys(dw) ==> r.dwUsd == 0.0
    ensures Summarizes(byType, TypeColumn(out), LeakageColumn(out)) && SortedDesc(byType)
    ensures TotalCount(byType) == |out| && TotalSum(byType) == Sum(LeakageColumn(out))
    ensures |top| <= TopCustomerCount && SortedDesc(top)
    ensures forall g :: g in top ==> g.total == CustomerLeakage(out, g.key)
  {
    var billingM := MonthlyTotals(billing);
    var erpM := MonthlyTotals(erp);
    var dwM := MonthlyTotals(dw);
    out := Reconciled(erpM, billingM, dwM, customers);
    ReconciledRows(billing, erp, dw, billingM, erpM, dwM, customers);
    byType := CfoByType(out);
    top := TopCustomers(out);
  }
}
