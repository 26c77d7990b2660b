/**
 * Stage 2 of the pipeline (src/variance_drilldown.py): every row of the variance table
 * gets its variance percentage, materiality flag, suspected root cause, owner, action
 * and priority, and the table is sorted by (priority ascending, leakage descending).
 * The priority column is a string and pandas orders strings lexically, so the rows come
 * out High, then Low, then Medium.
 */
module Drilldown {
  import opened Wrappers
  import opened Strings
  import opened Reconcile

  const MaterialLeakage: real := 500.0
  const MaterialPct: real := 0.1
  const HighLeakage: real := 2000.0

  const DefaultRootCause: string := "No issue detected"
  const DefaultOwner: string := "None"
  const DefaultAction: string := "No action required"

  /**
   * `variance_pct`: the ERP-over-billing variance relative to billing, defined only when
   * billing is above zero (a zero threshold, not EPS), NaN otherwise.
   */
  function VariancePct(r: ReconRow): (p: Option<real>)
    ensures p.Some? <==> r.billingUsd > 0.0
    ensures p.Some? ==> p.value * r.billingUsd == r.varErpVsBilling
  {
    if r.billingUsd > 0.0 then Some(r.varErpVsBilling / r.billingUsd) else None
  }

  datatype Materiality = Material | Immaterial

  /** `materiality_flag`: leakage of at least 500 or a percentage of at least 10 % either way; NaN never passes. */
  function MaterialityOf(leakage: real, pct: Option<real>): Materiality
  {
    if leakage >= MaterialLeakage || (pct.Some? && Abs(pct.value) >= MaterialPct) then Material else Immaterial
  }

  /** The materiality test on the row's own amounts, without the division. */
  lemma MaterialityOnAmounts(r: ReconRow)
    requires WellFormed(r)
    ensures MaterialityOf(r.leakageUsd, VariancePct(r)).Material?
      <==> r.leakageUsd >= 500.0 || (r.billingUsd > 0.0 && r.absErpVsBilling >= 0.1 * r.billingUsd)
  {
    if r.billingUsd > 0.0 {
      var b := r.billingUsd;
      var p := VariancePct(r).value;
      var q := Abs(p);
      assert p * b == r.varErpVsBilling;
      assert q * b == r.absErpVsBilling by {
        if p < 0.0 {
          assert q * b == -(p * b);
        }
      }
      TenPercentScaled(q, b, r.absErpVsBilling);
    }
  }

  /** A ratio of at least 10 % is a part of at least a tenth of the positive whole. */
  lemma TenPercentScaled(q: real, b: real, part: real)
    requires b > 0.0 && q * b == part
    ensures q >= 0.1 <==> part >= 0.1 * b
  {
  }

  /** Materiality is monotone in leakage: at equal percentage, more leakage is never less material. */
  lemma MaterialityMonotone(lower: real, higher: real, pct: Option<real>)
    requires lower <= higher && MaterialityOf(lower, pct) == Material
    ensures MaterialityOf(higher, pct) == Material
  {
  }

  /** `infer_root_cause`: exact match on the missing-invoice label, prefix match on the others. */
  function RootCause(vt: string): string
  {
    if vt == "Missing Invoice (Billing)" then "Invoice not generated or lost between Billing and ERP"
    else if StartsWith(vt, "DWH Duplicate") then "Duplicate events ingested in analytics layer"
    else if StartsWith(vt, "DWH Undercount") then "Missing analytics events or late ingestion"
    else if StartsWith(vt, "FX Mismatch") then "Different FX rate sources or timing between systems"
    else if StartsWith(vt, "Timing Difference") then "Revenue recognized in different periods (cutoff issue)"
    else DefaultRootCause
  }

  /** `assign_owner`: both warehouse labels share the "DWH" prefix and so one owner. */
  function Owner(vt: string): string
  {
    if vt == "Missing Invoice (Billing)" then "Billing / RevOps"
    else if StartsWith(vt, "DWH") then "Data Engineering"
    else if StartsWith(vt, "FX") then "Finance / Accounting"
    else if StartsWith(vt, "Timing") then "Finance / RevRec"
    else DefaultOwner
  }

  /** `recommend_action` */
  function Action(vt: string): string
  {
    if vt == "Missing Invoice (Billing)" then "Investigate contract configuration and reissue invoice"
    else if StartsWith(vt, "DWH Duplicate") then "Add deduplication logic in ingestion pipeline"
    else if StartsWith(vt, "DWH Undercount") then "Backfill missing events and add ingestion monitoring"
    else if StartsWith(vt, "FX") then "Align FX rate source and lock FX at invoice date"
    else if StartsWith(vt, "Timing") then "Review revenue recognition cutoff rules"
    else DefaultAction
  }

  // How each classifier label travels through the three routing tables: which test it
  // passes first and which earlier tests it fails.

  lemma RouteMissingInvoice()
    ensures var vt := MissingInvoice.Label();
      && RootCause(vt) == "Invoice not generated or lost between Billing and ERP"
      && Owner(vt) == "Billing / RevOps"
      && Action(vt) == "Investigate contract configuration and reissue invoice"
      && RootCause(vt) != DefaultRootCause && Owner(vt) != DefaultOwner && Action(vt) != DefaultAction
  {
  }

  lemma RouteDwhOvercount()
    ensures var vt := DwhOvercount.Label();
      && RootCause(vt) == "Duplicate events ingested in analytics layer"
      && Owner(vt) == "Data Engineering"
      && Action(vt) == "Add deduplication logic in ingestion pipeline"
      && RootCause(vt) != DefaultRootCause && Owner(vt) != DefaultOwner && Action(vt) != DefaultAction
  {
    var vt := DwhOvercount.Label();
    assert vt[0] != "Missing Invoice (Billing)"[0];
    assert StartsWith(vt, "DWH Duplicate");
    assert StartsWith(vt, "DWH");
  }

  lemma RouteDwhUndercount()
    ensures var vt := DwhUndercount.Label();
      && RootCause(vt) == "Missing analytics events or late ingestion"
      && Owner(vt) == "Data Engineering"
      && Action(vt) == "Backfill missing events and add ingestion monitoring"
      && RootCause(vt) != DefaultRootCause && Owner(vt) != DefaultOwner && Action(vt) != DefaultAction
  {
    var vt := DwhUndercount.Label();
    DiffersAt(vt, "DWH Duplicate", 4);
    assert StartsWith(vt, "DWH Undercount");
    assert StartsWith(vt, "DWH");
  }

  lemma RouteFxMismatch()
    ensures var vt := FxMismatch.Label();
      && RootCause(vt) == "Different FX rate sources or timing between systems"
      && Owner(vt) == "Finance / Accounting"
      && Action(vt) == "Align FX rate source and lock FX at invoice date"
      && RootCause(vt) != DefaultRootCause && Owner(vt) != DefaultOwner && Action(vt) != DefaultAction
  {
    var vt := FxMismatch.Label();
    DiffersAt(vt, "DWH Duplicate", 0);
    DiffersAt(vt, "DWH Undercount", 0);
    DiffersAt(vt, "DWH", 0);
    assert StartsWith(vt, "FX Mismatch");
    assert StartsWith(vt, "FX");
  }

  lemma RouteTimingDifference()
    ensures var vt := TimingDifference.Label();
      && RootCause(vt) == "Revenue recognized in different periods (cutoff issue)"
      && Owner(vt) == "Finance / RevRec"
      && Action(vt) == "Review revenue recognition cutoff rules"
      && RootCause(vt) != DefaultRootCause && Owner(vt) != DefaultOwner && Action(vt) != DefaultAction
  {
    var vt := TimingDifference.Label();
    DiffersAt(vt, "DWH Duplicate", 0);
    DiffersAt(vt, "DWH Undercount", 0);
    DiffersAt(vt, "DWH", 0);
    DiffersAt(vt, "FX Mismatch", 0);
    DiffersAt(vt, "FX", 0);
    assert StartsWith(vt, "Timing Difference");
    assert StartsWith(vt, "Timing");
  }

  lemma RouteOk()
    ensures var vt := Ok.Label();
      && RootCause(vt) == DefaultRootCause && Owner(vt) == DefaultOwner && Action(vt) == DefaultAction
  {
    var vt := Ok.Label();
    DiffersAt(vt, "DWH Duplicate", 0);
    DiffersAt(vt, "DWH Undercount", 0);
    DiffersAt(vt, "DWH", 0);
    DiffersAt(vt, "FX Mismatch", 0);
    DiffersAt(vt, "FX", 0);
    DiffersAt(vt, "Timing Difference", 0);
    DiffersAt(vt, "Timing", 0);
  }

  lemma MissingInvoiceCauseExact(vt: string)
    ensures RootCause(vt) == "Invoice not generated or lost between Billing and ERP" <==> vt == MissingInvoice.Label()
  {
  }

  lemma MissingInvoiceOwnerExact(vt: string)
    ensures Owner(vt) == "Billing / RevOps" <==> vt == MissingInvoice.Label()
  {
  }

  lemma MissingInvoiceActionExact(vt: string)
    ensures Action(vt) == "Investigate contract configuration and reissue invoice" <==> vt == MissingInvoice.Label()
  {
  }

  /**
   * The missing-invoice route is taken by the exact label and by no other string: its
   * root cause, owner and action each come out exactly when `vt` is that label.
   */
  lemma MissingInvoiceMatchedExactly(vt: string)
    ensures RootCause(vt) == "Invoice not generated or lost between Billing and ERP" <==> vt == MissingInvoice.Label()
    ensures Owner(vt) == "Billing / RevOps" <==> vt == MissingInvoice.Label()
    ensures Action(vt) == "Investigate contract configuration and reissue invoice" <==> vt == MissingInvoice.Label()
  {
    MissingInvoiceCauseExact(vt);
    MissingInvoiceOwnerExact(vt);
    MissingInvoiceActionExact(vt);
  }

  /** Near misses of the missing-invoice label: a shorter or padded variant falls through to the defaults. */
  lemma MissingInvoiceNearMisses()
    ensures var short := "Missing Invoice";
      RootCause(short) == DefaultRootCause && Owner(short) == DefaultOwner && Action(short) == DefaultAction
    ensures var padded := "Missing Invoice (Billing) ";
      RootCause(padded) == DefaultRootCause && Owner(padded) == DefaultOwner && Action(padded) == DefaultAction
  {
    var short, padded := "Missing Invoice", "Missing Invoice (Billing) ";
    assert |short| != |"Missing Invoice (Billing)"| && |padded| != |"Missing Invoice (Billing)"|;
    DiffersAt(short, "DWH Duplicate", 0);
    DiffersAt(short, "DWH Undercount", 0);
    DiffersAt(short, "DWH", 0);
    DiffersAt(short, "FX Mismatch", 0);
    DiffersAt(short, "FX", 0);
    DiffersAt(short, "Timing Difference", 0);
    DiffersAt(short, "Timing", 0);
    DiffersAt(padded, "DWH Duplicate", 0);
    DiffersAt(padded, "DWH Undercount", 0);
    DiffersAt(padded, "DWH", 0);
    DiffersAt(padded, "FX Mismatch", 0);
    DiffersAt(padded, "FX", 0);
    DiffersAt(padded, "Timing Difference", 0);
    DiffersAt(padded, "Timing", 0);
  }

  /** `priority`: High for material rows leaking at least 2000, Medium for other material rows, Low otherwise. */
  function Priority(flag: Materiality, leakage: real): (p: string)
    ensures p == "High" <==> flag.Material? && leakage >= HighLeakage
    ensures p == "Medium" <==> flag.Material? && leakage < HighLeakage
    ensures p == "Low" <==> flag.Immaterial?
  {
    if flag.Material? && leakage >= HighLeakage then "High"
    else if flag.Material? then "Medium"
    else "Low"
  }

  /** A drilldown row: the variance-table row and the derived columns. */
  datatype DrillRow = DrillRow(
    base: ReconRow,
    variancePct: Option<real>,
    materiality: Materiality,
    rootCause: string,
    owner: string,
    action: string,
    priority: string)

  /** The columns added to one row (lines 15-88). */
  function Enrich(r: ReconRow): (d: DrillRow)
    ensures d.base == r
  {
    var pct := VariancePct(r);
    var flag := MaterialityOf(r.leakageUsd, pct);
    DrillRow(r, pct, flag, RootCause(r.varianceType), Owner(r.varianceType), Action(r.varianceType),
             Priority(flag, r.leakageUsd))
  }

  /**
   * The worked cases: a missing invoice of 10000 against zero billing, whatever the
   * warehouse holds, leaks 10000 and is material and High; a row on which all three
   * systems agree at 10000 leaks nothing, has percentage 0 and is immaterial and Low.
   */
  lemma WorkedCases(k: Key, dw: real, customer: Option<Customer>)
    ensures var a := Enrich(MakeRow(k, 10000.0, 0.0, dw, customer));
      && a.base.varianceType == MissingInvoice.Label() && a.base.leakageUsd == 10000.0
      && a.variancePct == None && a.materiality == Material && a.priority == "High"
    ensures var b := Enrich(MakeRow(k, 10000.0, 10000.0, 10000.0, customer));
      && b.base.varianceType == Ok.Label() && b.base.leakageUsd == 0.0
      && b.variancePct == Some(0.0) && b.materiality == Immaterial && b.priority == "Low"
  {
  }

  /** x may stand before y: priority ascending as Python compares strings, then leakage descending. */
  predicate Before(x: DrillRow, y: DrillRow)
  {
    Less(x.priority, y.priority) || (x.priority == y.priority && x.base.leakageUsd >= y.base.leakageUsd)
  }

  /** `sort_values(by=["priority", "leakage_usd"], ascending=[True, False])` */
  predicate SortedDrilldown(s: seq<DrillRow>)
  {
    forall i, j :: 0 <= i < j < |s| ==> Before(s[i], s[j])
  }

  lemma BeforeTotal(x: DrillRow, y: DrillRow)
    ensures Before(x, y) || Before(y, x)
  {
    if x.priority != y.priority {
      LessTotal(x.priority, y.priority);
    }
  }

  lemma BeforeTransitive(x: DrillRow, y: DrillRow, z: DrillRow)
    requires Before(x, y) && Before(y, z)
    ensures Before(x, z)
  {
    if Less(x.priority, y.priority) && Less(y.priority, z.priority) {
      LessTransitive(x.priority, y.priority, z.priority);
    }
  }

  /** Insert `x` after every row it does not strictly precede, so rows with equal keys keep their order. */
  function Insert(x: DrillRow, s: seq<DrillRow>): (r: seq<DrillRow>)
    ensures multiset(r) == multiset(s) + multiset{x}
  {
    if |s| == 0 || !Before(s[0], x) then [x] + s
    else
      assert s == [s[0]] + s[1..];
      [s[0]] + Insert(x, s[1..])
  }

  /** Where Insert places `x`: after the longest prefix of rows that may precede it. */
  function Pos(x: DrillRow, s: seq<DrillRow>): (p: nat)
    ensures p <= |s|
  {
    if |s| == 0 || !Before(s[0], x) then 0 else 1 + Pos(x, s[1..])
  }

  lemma {:induction false} InsertAt(x: DrillRow, s: seq<DrillRow>)
    ensures Insert(x, s) == s[..Pos(x, s)] + [x] + s[Pos(x, s)..]
  {
    if |s| > 0 && Before(s[0], x) {
      var t := s[1..];
      InsertAt(x, t);
      var q := Pos(x, t);
      assert Insert(x, s) == [s[0]] + Insert(x, t) && Pos(x, s) == q + 1;
      assert s[..q + 1] == [s[0]] + t[..q];
      assert s[q + 1..] == t[q..];
    }
  }

  /** The rows before Pos(x, s) may all precede `x`, and the row at Pos(x, s), if any, may not. */
  lemma {:induction false} PosBounds(x: DrillRow, s: seq<DrillRow>)
    ensures forall j :: 0 <= j < Pos(x, s) ==> Before(s[j], x)
    ensures Pos(x, s) < |s| ==> !Before(s[Pos(x, s)], x)
  {
    if |s| > 0 && Before(s[0], x) {
      var t := s[1..];
      PosBounds(x, t);
      forall j | 0 < j < Pos(x, s)
        ensures Before(s[j], x)
      {
        assert s[j] == t[j - 1];
      }
    }
  }

  /**
   * Stability: inserted into a sorted table, `x` lands after exactly the rows that may
   * precede it and before every other row.  A row tied with `x` on (priority, leakage) may
   * precede it, so rows with equal keys keep the order of the variance table, as pandas'
   * multi-key sort does.
   */
  lemma InsertPlacement(x: DrillRow, s: seq<DrillRow>)
    requires SortedDrilldown(s)
    ensures Insert(x, s) == s[..Pos(x, s)] + [x] + s[Pos(x, s)..]
    ensures forall j :: 0 <= j < Pos(x, s) ==> Before(s[j], x)
    ensures forall j :: Pos(x, s) <= j < |s| ==> !Before(s[j], x)
  {
    InsertAt(x, s);
    PosBounds(x, s);
    var p := Pos(x, s);
    forall j | p < j < |s|
      ensures !Before(s[j], x)
    {
      NotBeforeLater(s[p], s[j], x);
    }
  }

  /** If y may follow w but w may not precede x, then y may not precede x either. */
  lemma NotBeforeLater(w: DrillRow, y: DrillRow, x: DrillRow)
    requires Before(w, y) && !Before(w, x)
    ensures !Before(y, x)
  {
    if Before(y, x) {
      BeforeTransitive(w, y, x);
    }
  }

  lemma {:induction false} InsertSorted(x: DrillRow, s: seq<DrillRow>)
    requires SortedDrilldown(s)
    ensures SortedDrilldown(Insert(x, s))
  {
    if |s| == 0 {
    } else if !Before(s[0], x) {
      BeforeTotal(s[0], x);
      forall j | 0 <= j < |s|
        ensures Before(x, s[j])
      {
        if j > 0 {
          BeforeTransitive(x, s[0], s[j]);
        }
      }
    } else {
      var tail := Insert(x, s[1..]);
      InsertSorted(x, s[1..]);
      forall y | y in tail
        ensures Before(s[0], y)
      {
        assert y in multiset(tail);
        if y != x {
          var m :| 0 <= m < |s[1..]| && s[1..][m] == y;
          assert s[m + 1] == y;
        }
      }
      forall i, j | 0 <= i < j < |[s[0]] + tail|
        ensures Before(([s[0]] + tail)[i], ([s[0]] + tail)[j])
      {
        if i == 0 {
          assert ([s[0]] + tail)[j] == tail[j - 1];
        } else {
          assert ([s[0]] + tail)[i] == tail[i - 1] && ([s[0]] + tail)[j] == tail[j - 1];
        }
      }
    }
  }

  /** The variance-table rows underneath the drilldown rows. */
  function Bases(s: seq<DrillRow>): (b: seq<ReconRow>)
    ensures |b| == |s|
  {
    seq(|s|, i requires 0 <= i < |s| => s[i].base)
  }

  lemma {:induction false} InsertBases(x: DrillRow, s: seq<DrillRow>)
    ensures multiset(Bases(Insert(x, s))) == multiset(Bases(s)) + multiset{x.base}
  {
    if |s| == 0 || !Before(s[0], x) {
      assert Bases([x] + s) == [x.base] + Bases(s);
    } else {
      InsertBases(x, s[1..]);
      assert Bases([s[0]] + Insert(x, s[1..])) == [s[0].base] + Bases(Insert(x, s[1..]));
      assert Bases(s) == [s[0].base] + Bases(s[1..]);
    }
  }

  lemma InsertMembers(x: DrillRow, s: seq<DrillRow>)
    ensures forall d :: d in Insert(x, s) ==> d == x || d in s
  {
    forall d | d in Insert(x, s)
      ensures d == x || d in s
    {
      assert d in multiset(Insert(x, s));
    }
  }

  /** One insertion adds exactly the one new row underneath. */
  lemma InsertAddsRow(x: DrillRow, rows: seq<ReconRow>, i: nat, s: seq<DrillRow>)
    requires i < |rows| && x.base == rows[i] && multiset(Bases(s)) == multiset(rows[..i])
    ensures multiset(Bases(Insert(x, s))) == multiset(rows[..i + 1])
  {
    InsertBases(x, s);
    assert rows[..i + 1] == rows[..i] + [rows[i]];
  }

  /** One insertion of an enriched row keeps every row enriched. */
  lemma InsertKeepsEnriched(r: ReconRow, s: seq<DrillRow>)
    requires forall d :: d in s ==> d == Enrich(d.base)
    ensures forall d :: d in Insert(Enrich(r), s) ==> d == Enrich(d.base)
  {
    InsertMembers(Enrich(r), s);
  }

  /**
   * The drilldown table: every row enriched, then sorted by (priority ascending,
   * leakage descending).  No row is dropped or added: the rows underneath are a
   * permutation of the input.
   */
  method BuildDrilldown(rows: seq<ReconRow>) returns (out: seq<DrillRow>)
    ensures SortedDrilldown(out)
    ensures multiset(Bases(out)) == multiset(rows)
    ensures forall d :: d in out ==> d == Enrich(d.base)
  {
    out := [];
    for i := 0 to |rows|
      invariant SortedDrilldown(out)
      invariant multiset(Bases(out)) == multiset(rows[..i])
      invariant forall d :: d in out ==> d == Enrich(d.base)
    {
      InsertSorted(Enrich(rows[i]), out);
      InsertAddsRow(Enrich(rows[i]), rows, i, out);
      InsertKeepsEnriched(rows[i], out);
      out := Insert(Enrich(rows[i]), out);
    }
    assert rows[..|rows|] == rows;
  }

  /** Python's string order on the three priorities: High < Low < Medium. */
  lemma PriorityLexicalOrder()
    ensures Less("High", "Low") && Less("Low", "Medium") && Less("High", "Medium")
  {
  }

  /** Position of a priority in the drilldown order (not severity order). */
  function OutputRank(p: string): nat
  {
    if p == "High" then 0 else if p == "Low" then 1 else 2
  }

  /**
   * A sorted drilldown lists all High rows, then all Low rows, then all Medium rows, and
   * within one priority the leakage never increases.
   */
  lemma SortedDrilldownOrder(s: seq<DrillRow>)
    requires SortedDrilldown(s)
    requires forall d :: d in s ==> d.priority == "High" || d.priority == "Low" || d.priority == "Medium"
    ensures forall i, j :: 0 <= i < j < |s| ==> OutputRank(s[i].priority) <= OutputRank(s[j].priority)
    ensures forall i, j :: 0 <= i < j < |s| && s[i].priority == s[j].priority ==> s[i].base.leakageUsd >= s[j].base.leakageUsd
  {
    PriorityLexicalOrder();
    LessAsymmetric("High", "Low");
    LessAsymmetric("Low", "Medium");
    LessAsymmetric("High", "Medium");
    forall i, j | 0 <= i < j < |s|
      ensures OutputRank(s[i].priority) <= OutputRank(s[j].priority)
      ensures s[i].priority == s[j].priority ==> s[i].base.leakageUsd >= s[j].base.leakageUsd
    {
      assert s[i] in s && s[j] in s;
      LessIrreflexive(s[i].priority);
    }
  }

  /** Every priority in an enriched table is one of the three, so the order lemma applies to it. */
  lemma EnrichedPriorities(r: ReconRow)
    ensures var p := Enrich(r).priority; p == "High" || p == "Low" || p == "Medium"
  {
  }
}
