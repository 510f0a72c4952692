/**
 The dashboard's own computation of an order's figures, backend/src/modules/analytics/reporting.service.ts,
 against the ledgers it duplicates: discounts.service.ts and the order summary of orders.service.ts.
 */
module DashboardTotals {
  import opened Discounts
  import opened Reals
  import opened Sequences

  /** What the dashboard counts for one discount: always relative to the undiscounted subtotal. */
  function Flat(base: real, d: Discount): real {
    if !d.approval.Approved? then 0.0
    else if d.kind.Percentage? then Percent(base, d.value)
    else d.value
  }

  function FlatTotal(base: real, ds: seq<Discount>): real {
    if ds == [] then 0.0 else FlatTotal(base, Front(ds)) + Flat(base, Last(ds))
  }

  function DashboardTotal(base: real, ds: seq<Discount>): real {
    Max(base - FlatTotal(base, ds), 0.0)
  }

  /** Values as the create and update inputs admit them. */
  ghost predicate NonNegativeValues(ds: seq<Discount>) {
    forall i :: 0 <= i < |ds| ==> ds[i].value >= 0.0
  }

  /** An approved discount that takes something off. */
  predicate Counts(d: Discount) {
    d.approval.Approved? && d.value > 0.0
  }

  ghost predicate NoneCounts(ds: seq<Discount>) {
    forall i :: 0 <= i < |ds| ==> !Counts(ds[i])
  }

  /** No percentage that counts comes after another discount that counts. */
  ghost predicate PercentagesUndisturbed(ds: seq<Discount>) {
    forall i, j :: 0 <= i < j < |ds| && Counts(ds[i]) && Counts(ds[j]) ==> !ds[j].kind.Percentage?
  }

  lemma UndisturbedSnoc(ds: seq<Discount>)
    requires ds != []
    ensures NoneCounts(ds) <==> NoneCounts(Front(ds)) && !Counts(Last(ds))
    ensures PercentagesUndisturbed(ds) <==>
              PercentagesUndisturbed(Front(ds)) && (Counts(Last(ds)) && Last(ds).kind.Percentage? ==> NoneCounts(Front(ds)))
  {
    var front := Front(ds);
    assert forall i :: 0 <= i < |front| ==> ds[i] == front[i];
    if PercentagesUndisturbed(ds) && Counts(Last(ds)) && Last(ds).kind.Percentage? {
      forall i | 0 <= i < |front|
        ensures !Counts(front[i])
      {
        assert front[i] == ds[i];
      }
    }
  }

  /** Percentages of two amounts, and their order. */
  lemma PercentOrder(r: real, base: real, v: real)
    requires 0.0 <= r <= base && v >= 0.0
    ensures 0.0 <= Percent(r, v) <= Percent(base, v)
    ensures Percent(r, v) == Percent(base, v) <==> r == base || v == 0.0
    ensures r > 0.0 ==> (Percent(r, v) == 0.0 <==> v == 0.0)
  {
    hide Times, Percent;
    PercentIsTimes(r, v);
    PercentIsTimes(base, v);
    TimesUnits(r);
    TimesUnits(base);
    TimesMonotone(r, base, v / 100.0);
    TimesMonotone(0.0, v / 100.0, r);
    ZeroProduct(r, v / 100.0);
    ZeroProduct(base - r, v / 100.0);
    Distribute(base, r, v / 100.0);
  }

  lemma ZeroProduct(a: real, b: real)
    ensures Times(a, b) == 0.0 <==> a == 0.0 || b == 0.0
  {
  }

  /** Stacking never takes more than the flat sum. */
  lemma {:induction false} LedgerAtLeastFlat(base: real, ds: seq<Discount>)
    requires base >= 0.0 && NonNegativeValues(ds)
    ensures Discounted(base, ds) >= base - FlatTotal(base, ds)
  {
    hide Percent, Times;
    if ds != [] {
      var front, d := Front(ds), Last(ds);
      var r := Discounted(base, front);
      assert forall i :: 0 <= i < |front| ==> front[i] == ds[i];
      Conservation(base, front);
      LedgerAtLeastFlat(base, front);
      PercentOrder(r, base, d.value);
    }
  }

  /** While something is left, nothing was clamped: the ledger keeps what the flat sum keeps exactly
      when no percentage was disturbed, and everything exactly when no discount counts. */
  lemma {:induction false} LedgerAgainstFlat(base: real, ds: seq<Discount>)
    requires base >= 0.0 && NonNegativeValues(ds)
    requires Discounted(base, ds) > 0.0
    ensures Discounted(base, ds) == base - FlatTotal(base, ds) <==> PercentagesUndisturbed(ds)
    ensures Discounted(base, ds) == base <==> NoneCounts(ds)
  {
    hide Percent, Times;
    if ds != [] {
      var front, d := Front(ds), Last(ds);
      var r := Discounted(base, front);
      assert forall i :: 0 <= i < |front| ==> front[i] == ds[i];
      Conservation(base, front);
      LedgerAtLeastFlat(base, front);
      LedgerAgainstFlat(base, front);
      UndisturbedSnoc(ds);
      PercentOrder(r, base, d.value);
    }
  }

  /** The dashboard never shows more than the ledger asks for. */
  lemma DashboardAtMostLedger(base: real, ds: seq<Discount>)
    requires base >= 0.0 && NonNegativeValues(ds)
    ensures DashboardTotal(base, ds) <= Discounted(base, ds)
  {
    Conservation(base, ds);
    LedgerAtLeastFlat(base, ds);
  }

  /** Discount `i` alone takes all that is left at its place. */
  predicate Exhausts(base: real, ds: seq<Discount>, i: nat)
    requires i < |ds|
  {
    && ds[i].approval.Approved?
    && (if ds[i].kind.Percentage? then ds[i].value >= 100.0 else ds[i].value >= Discounted(base, ds[..i]))
  }

  /** There is nothing to discount, or some discount takes all that is left. */
  ghost predicate Exhausted(base: real, ds: seq<Discount>) {
    base == 0.0 || exists i :: 0 <= i < |ds| && Exhausts(base, ds, i)
  }

  lemma ApplyZeroIff(r: real, d: Discount)
    requires r > 0.0
    ensures Apply(r, d) == 0.0 <==> d.approval.Approved? && (if d.kind.Percentage? then d.value >= 100.0 else d.value >= r)
  {
    if d.kind.Percentage? {
      PercentOf(r, d.value);
    }
  }

  lemma PercentOf(r: real, v: real)
    requires r > 0.0
    ensures Percent(r, v) >= r <==> v >= 100.0
  {
    hide Percent, Times;
    PercentIsTimes(r, v);
    TimesUnits(r);
    if v >= 100.0 {
      TimesMonotone(1.0, v / 100.0, r);
    } else {
      TimesIncreases(v / 100.0, 1.0, r);
    }
  }

  /** The ledger leaves nothing exactly when the rows say so. */
  lemma {:induction false} LedgerExhaustedIff(base: real, ds: seq<Discount>)
    requires base >= 0.0 && NonNegativeValues(ds)
    ensures Discounted(base, ds) == 0.0 <==> Exhausted(base, ds)
  {
    if ds != [] {
      hide Apply, Discounted, Exhausts;
      var front, n := Front(ds), |ds| - 1;
      assert NonNegativeValues(front);
      LedgerExhaustedIff(base, front);
      assert ds[..n] == front;
      forall i | 0 <= i < n
        ensures Exhausts(base, ds, i) == Exhausts(base, front, i)
      {
        SameExhausts(base, ds, i);
      }
      Conservation(base, front);
      LastExhausts(base, ds);
      if Exhausted(base, front) && base != 0.0 {
        var i :| 0 <= i < |front| && Exhausts(base, front, i);
        assert Exhausts(base, ds, i);
      }
    } else {
      assert Discounted(base, ds) == base;
    }
  }

  lemma SameExhausts(base: real, ds: seq<Discount>, i: nat)
    requires i < |ds| - 1
    ensures Exhausts(base, ds, i) == Exhausts(base, Front(ds), i)
  {
    assert Front(ds)[..i] == ds[..i];
  }

  lemma LastExhausts(base: real, ds: seq<Discount>)
    requires ds != [] && NonNegativeValues(ds) && Discounted(base, Front(ds)) >= 0.0
    ensures Discounted(base, ds) == 0.0 <==> Discounted(base, Front(ds)) == 0.0 || Exhausts(base, ds, |ds| - 1)
  {
    var r := Discounted(base, Front(ds));
    assert ds[..|ds| - 1] == Front(ds);
    if r > 0.0 {
      ApplyZeroIff(r, Last(ds));
    } else {
      ApplyMonotone(r, r, Last(ds));
    }
  }

  /** The two figures agree exactly when the rows leave nothing or no counting percentage follows another
      counting discount. */
  lemma DashboardAgreesIff(base: real, ds: seq<Discount>)
    requires base >= 0.0 && NonNegativeValues(ds)
    ensures DashboardTotal(base, ds) == Discounted(base, ds) <==> Exhausted(base, ds) || PercentagesUndisturbed(ds)
  {
    LedgerExhaustedIff(base, ds);
    DashboardAgreesWith(base, ds);
  }

  lemma DashboardAgreesWith(base: real, ds: seq<Discount>)
    requires base >= 0.0 && NonNegativeValues(ds)
    ensures DashboardTotal(base, ds) == Discounted(base, ds) <==>
              Discounted(base, ds) == 0.0 || PercentagesUndisturbed(ds)
  {
    Conservation(base, ds);
    DashboardAtMostLedger(base, ds);
    if Discounted(base, ds) > 0.0 {
      LedgerAgainstFlat(base, ds);
    }
  }

  /** In particular: when every approved discount is a fixed amount, or at most one is approved. */
  lemma DashboardAgreesInSimpleCases(base: real, ds: seq<Discount>)
    requires base >= 0.0 && NonNegativeValues(ds)
    requires (forall i :: 0 <= i < |ds| && ds[i].approval.Approved? ==> ds[i].kind.FixedAmount?)
          || (forall i, j :: 0 <= i < j < |ds| ==> !(ds[i].approval.Approved? && ds[j].approval.Approved?))
    ensures DashboardTotal(base, ds) == Discounted(base, ds)
  {
    DashboardAgreesIff(base, ds);
  }

  // ---------- Tax ----------

  /** The order's grand total, `buildFinancialSummary` in orders.service.ts. */
  function GrandTotal(base: real, ds: seq<Discount>, taxRate: real): real {
    Discounted(base, ds) + Times(Discounted(base, ds), taxRate / 100.0)
  }

  /** The tax is a percentage of what the discounts leave. */
  lemma TaxOnTop(base: real, ds: seq<Discount>, taxRate: real)
    ensures GrandTotal(base, ds, taxRate) * 100.0 == Discounted(base, ds) * (100.0 + taxRate)
  {
    var r := Discounted(base, ds);
    hide Discounted;
    assert r * (taxRate / 100.0) * 100.0 == r * taxRate;
  }

  /** The dashboard's grand total leaves the tax out: it never exceeds the order's, and the two are
      equal exactly when the rows leave nothing, or the discounted figures agree and there is no tax. */
  lemma DashboardAgainstGrandTotal(base: real, ds: seq<Discount>, taxRate: real)
    requires base >= 0.0 && NonNegativeValues(ds) && taxRate >= 0.0
    ensures DashboardTotal(base, ds) <= GrandTotal(base, ds, taxRate)
    ensures DashboardTotal(base, ds) == GrandTotal(base, ds, taxRate) <==>
              Exhausted(base, ds) || (taxRate == 0.0 && PercentagesUndisturbed(ds))
  {
    LedgerExhaustedIff(base, ds);
    hide Times;
    Conservation(base, ds);
    DashboardAtMostLedger(base, ds);
    DashboardAgreesWith(base, ds);
    ZeroProduct(Discounted(base, ds), taxRate / 100.0);
    TimesMonotone(0.0, Discounted(base, ds), taxRate / 100.0);
    TimesUnits(taxRate / 100.0);
  }
}
