/**
 The discount ledger of backend/src/modules/discounts/discounts.service.ts: the clamped,
 order-sensitive fold of `summarizeByOrder`.
 */
module Discounts {
  import opened Reals
  import opened Sequences

  datatype Kind = Percentage | FixedAmount
  datatype Approval = PendingApproval | Approved | Rejected
  datatype Discount = Discount(kind: Kind, value: real, approval: Approval)

  /** What one discount takes off a running subtotal of `r`. */
  function Bounded(r: real, d: Discount): real {
    if !d.approval.Approved? then 0.0
    else
      var applied := if d.kind.Percentage? then Percent(r, d.value) else d.value;
      Min(Max(applied, 0.0), r)
  }

  function Apply(r: real, d: Discount): real {
    if d.approval.Approved? then Max(r - Bounded(r, d), 0.0) else r
  }

  /** The ledger's discounted subtotal: the discounts are taken off one after the other. */
  function Discounted(base: real, ds: seq<Discount>): real {
    if ds == [] then base else Apply(Discounted(base, Front(ds)), Last(ds))
  }

  /** The ledger's discount total. */
  function Taken(base: real, ds: seq<Discount>): real {
    if ds == [] then 0.0
    else Taken(base, Front(ds)) + Bounded(Discounted(base, Front(ds)), Last(ds))
  }

  lemma NothingYet(base: real)
    ensures Discounted(base, []) == base && Taken(base, []) == 0.0
  {
  }

  lemma OneMore(base: real, ds: seq<Discount>, d: Discount)
    ensures Discounted(base, ds + [d]) == Apply(Discounted(base, ds), d)
    ensures Taken(base, ds + [d]) == Taken(base, ds) + Bounded(Discounted(base, ds), d)
  {
    hide Percent, Apply, Bounded;
    FrontLast(ds, d);
  }

  method Summarize(base: real, discounts: seq<Discount>) returns (discountTotal: real, discountedSubtotal: real)
    ensures discountTotal == Taken(base, discounts) && discountedSubtotal == Discounted(base, discounts)
    ensures base >= 0.0 ==> 0.0 <= discountedSubtotal <= base && discountTotal + discountedSubtotal == base
  {
    hide Percent, Discounted, Taken;
    NothingYet(base);
    var runningSubtotal := base;
    discountTotal := 0.0;
    assert discounts[..0] == [];
    for i := 0 to |discounts|
      invariant runningSubtotal == Discounted(base, discounts[..i])
      invariant discountTotal == Taken(base, discounts[..i])
    {
      OneMore(base, discounts[..i], discounts[i]);
      assert discounts[..i + 1] == discounts[..i] + [discounts[i]];
      var discount := discounts[i];
      if discount.approval != Approved {
        continue;
      }
      var appliedAmount := if discount.kind == Percentage then Percent(runningSubtotal, discount.value) else discount.value;
      var boundedAmount := Min(Max(appliedAmount, 0.0), runningSubtotal);
      discountTotal := discountTotal + boundedAmount;
      runningSubtotal := Max(runningSubtotal - boundedAmount, 0.0);
    }
    assert discounts[..|discounts|] == discounts;
    discountedSubtotal := runningSubtotal;
    if base >= 0.0 {
      Conservation(base, discounts);
    }
  }

  // ---------- Conservation and monotonicity ----------

  /** Whatever the values: what is taken and what remains add up to the base, both within it. */
  lemma {:induction false} Conservation(base: real, ds: seq<Discount>)
    requires base >= 0.0
    ensures Taken(base, ds) + Discounted(base, ds) == base
    ensures 0.0 <= Discounted(base, ds) <= base
  {
    if ds != [] {
      Conservation(base, Front(ds));
    }
  }

  /** The share that an approved percentage leaves, and the amount that an approved fixed discount
      takes when it is not clamped. */
  function Share(d: Discount): real {
    if d.approval.Approved? && d.kind.Percentage? then PercentLeft(d.value) else 1.0
  }

  const Off: Discount -> real := (d: Discount) =>
    if d.approval.Approved? && d.kind.FixedAmount? then Max(d.value, 0.0) else 0.0

  lemma ApplyFactor(r: real, d: Discount)
    requires r >= 0.0
    ensures 0.0 <= Share(d) <= 1.0 && Off(d) >= 0.0
    ensures d.kind.Percentage? ==> Apply(r, d) == Times(r, Share(d)) && Off(d) == 0.0
    ensures d.kind.FixedAmount? ==> Apply(r, d) == Max(r - Off(d), 0.0) && Share(d) == 1.0
  {
    hide Times, Percent, PercentLeft;
    ClampedPercent(r, d.value);
    TimesUnits(r);
  }

  lemma ApplyMonotone(r: real, s: real, d: Discount)
    requires 0.0 <= r <= s
    ensures 0.0 <= Apply(r, d) <= Apply(s, d)
    ensures Apply(r, d) <= r
  {
    hide Times, Bounded, Apply, Share, Off;
    ApplyFactor(r, d);
    ApplyFactor(s, d);
    TimesMonotone(r, s, Share(d));
    Shrink(r, Share(d));
  }

  lemma {:induction false} DiscountedMonotone(r: real, s: real, ds: seq<Discount>)
    requires 0.0 <= r <= s
    ensures 0.0 <= Discounted(r, ds) <= Discounted(s, ds)
  {
    if ds != [] {
      DiscountedMonotone(r, s, Front(ds));
      ApplyMonotone(Discounted(r, Front(ds)), Discounted(s, Front(ds)), Last(ds));
    }
  }

  lemma {:induction false} DiscountedConcat(base: real, xs: seq<Discount>, ys: seq<Discount>)
    ensures Discounted(base, xs + ys) == Discounted(Discounted(base, xs), ys)
  {
    if ys == [] {
      assert xs + ys == xs;
    } else {
      assert xs + ys == (xs + Front(ys)) + [Last(ys)];
      FrontLast(xs + Front(ys), Last(ys));
      DiscountedConcat(base, xs, Front(ys));
    }
  }

  lemma DiscountedOne(base: real, d: Discount)
    ensures Discounted(base, [d]) == Apply(base, d)
  {
    FrontLast([], d);
    assert [] + [d] == [d];
    assert Discounted(base, []) == base;
  }

  /** One more discount, at any position and of any value, never raises the discounted subtotal. */
  lemma InsertNeverRaises(base: real, before: seq<Discount>, d: Discount, after: seq<Discount>)
    requires base >= 0.0
    ensures Discounted(base, before + [d] + after) <= Discounted(base, before + after)
  {
    var r := Discounted(base, before);
    Conservation(base, before);
    DiscountedConcat(base, before + [d], after);
    DiscountedConcat(base, before, [d]);
    DiscountedOne(r, d);
    DiscountedConcat(base, before, after);
    ApplyMonotone(r, r, d);
    DiscountedMonotone(Apply(r, d), r, after);
  }

  lemma LargerShare(d: Discount, value: real)
    requires value >= d.value
    ensures Share(d.(value := value)) <= Share(d) && Off(d) <= Off(d.(value := value))
  {
  }

  /** Raising the value of one discount never raises the discounted subtotal. */
  lemma LargerNeverRaises(base: real, before: seq<Discount>, d: Discount, value: real, after: seq<Discount>)
    requires base >= 0.0 && value >= d.value
    ensures Discounted(base, before + [d.(value := value)] + after) <= Discounted(base, before + [d] + after)
  {
    hide Share, Off, Times, Apply, Discounted;
    var larger, r := d.(value := value), Discounted(base, before);
    Conservation(base, before);
    DiscountedConcat(base, before + [d], after);
    DiscountedConcat(base, before, [d]);
    DiscountedOne(r, d);
    DiscountedConcat(base, before + [larger], after);
    DiscountedConcat(base, before, [larger]);
    DiscountedOne(r, larger);
    LargerShare(d, value);
    ApplyFactor(r, d);
    ApplyFactor(r, larger);
    TimesMonotone(Share(larger), Share(d), r);
    ApplyMonotone(r, r, larger);
    DiscountedMonotone(Apply(r, larger), Apply(r, d), after);
  }

  // ---------- The order of the discounts ----------

  function Shares(ds: seq<Discount>): real {
    if ds == [] then 1.0 else Times(Shares(Front(ds)), Share(Last(ds)))
  }

  lemma {:induction false} SharesRange(ds: seq<Discount>)
    ensures 0.0 <= Shares(ds) <= 1.0
  {
    hide Times, Share;
    if ds != [] {
      SharesRange(Front(ds));
      ApplyFactor(0.0, Last(ds));
      Shrink(Shares(Front(ds)), Share(Last(ds)));
    }
  }

  lemma {:induction false} OffNonNegative(ds: seq<Discount>)
    ensures Sum(ds, Off) >= 0.0
  {
    if ds != [] {
      OffNonNegative(Front(ds));
    }
  }

  /** Percentages first, then fixed amounts. */
  function Least(base: real, ds: seq<Discount>): real {
    ShareThenFixed(base, Shares(ds), Sum(ds, Off))
  }

  /** Fixed amounts first, then percentages. */
  function Greatest(base: real, ds: seq<Discount>): real {
    FixedThenShare(base, Shares(ds), Sum(ds, Off))
  }

  lemma {:induction false} BetweenExtremes(base: real, ds: seq<Discount>)
    requires base >= 0.0
    ensures Least(base, ds) <= Discounted(base, ds) <= Greatest(base, ds)
  {
    hide Times, Bounded, Apply, Share, Off, ShareThenFixed, FixedThenShare;
    if ds == [] {
      NothingTaken(base);
    } else {
      var front, d := Front(ds), Last(ds);
      BetweenExtremes(base, front);
      SharesRange(front);
      OffNonNegative(front);
      Conservation(base, front);
      ApplyFactor(Discounted(base, front), d);
      TimesUnits(Shares(front));
      if d.kind.Percentage? {
        ShareStep(base, Shares(front), Sum(front, Off), Discounted(base, front), Share(d),
                  Shares(ds), Sum(ds, Off), Discounted(base, ds));
      } else {
        assert Shares(ds) == Shares(front);
        FixedStep(base, Shares(ds), Sum(front, Off), Discounted(base, front), Off(d),
                  Sum(ds, Off), Discounted(base, ds));
      }
    }
  }

  lemma {:induction false} SharesConcat(xs: seq<Discount>, ys: seq<Discount>)
    ensures Shares(xs + ys) == Times(Shares(xs), Shares(ys))
  {
    hide Times, Share;
    if ys == [] {
      assert xs + ys == xs;
      TimesUnits(Shares(xs));
    } else {
      assert xs + ys == (xs + Front(ys)) + [Last(ys)];
      FrontLast(xs + Front(ys), Last(ys));
      SharesConcat(xs, Front(ys));
      Associate(Shares(xs), Shares(Front(ys)), Share(Last(ys)));
    }
  }

  lemma {:induction false} SharesPermute(xs: seq<Discount>, ys: seq<Discount>)
    requires multiset(xs) == multiset(ys)
    ensures Shares(xs) == Shares(ys)
    decreases xs
  {
    hide Times, Share;
    if xs == [] {
      assert |multiset(ys)| == 0;
    } else {
      var i := Locate(xs, ys);
      SharesPermute(Front(xs), Without(ys, i));
      SharesWithout(ys, i);
    }
  }

  lemma SharesSnoc(ds: seq<Discount>, d: Discount)
    ensures Shares(ds + [d]) == Times(Shares(ds), Share(d))
  {
    FrontLast(ds, d);
  }

  lemma SharesWithout(ys: seq<Discount>, i: nat)
    requires i < |ys|
    ensures Shares(ys) == Times(Shares(Without(ys, i)), Share(ys[i]))
  {
    hide Times, Share, Shares;
    assert ys == (ys[..i] + [ys[i]]) + ys[i + 1..];
    SharesConcat(ys[..i] + [ys[i]], ys[i + 1..]);
    SharesSnoc(ys[..i], ys[i]);
    SharesConcat(ys[..i], ys[i + 1..]);
    Associate(Shares(ys[..i]), Share(ys[i]), Shares(ys[i + 1..]));
  }

  const IsPercentage: Discount -> bool := (d: Discount) => d.kind.Percentage?
  const IsFixed: Discount -> bool := (d: Discount) => d.kind.FixedAmount?

  function PercentagesFirst(ds: seq<Discount>): seq<Discount> {
    Filter(ds, IsPercentage) + Filter(ds, IsFixed)
  }

  function FixedFirst(ds: seq<Discount>): seq<Discount> {
    Filter(ds, IsFixed) + Filter(ds, IsPercentage)
  }

  lemma PartitionPermutes(ds: seq<Discount>)
    ensures multiset(PercentagesFirst(ds)) == multiset(ds) == multiset(FixedFirst(ds))
  {
    Partition(ds, IsPercentage, IsFixed);
  }

  lemma {:induction false} OnlyPercentages(base: real, ds: seq<Discount>)
    requires base >= 0.0 && forall d :: d in ds ==> d.kind.Percentage?
    ensures Discounted(base, ds) == Times(base, Shares(ds)) && Sum(ds, Off) == 0.0
  {
    hide Times, Bounded, Apply, Share, Off;
    if ds == [] {
      TimesUnits(base);
    } else {
      OnlyPercentages(base, Front(ds));
      Conservation(base, Front(ds));
      ApplyFactor(Discounted(base, Front(ds)), Last(ds));
      Associate(base, Shares(Front(ds)), Share(Last(ds)));
    }
  }

  lemma {:induction false} OnlyFixed(base: real, ds: seq<Discount>)
    requires base >= 0.0 && forall d :: d in ds ==> d.kind.FixedAmount?
    ensures Discounted(base, ds) == Max(base - Sum(ds, Off), 0.0) && Shares(ds) == 1.0
  {
    hide Times, Bounded, Apply, Share, Off;
    if ds != [] {
      OnlyFixed(base, Front(ds));
      OffNonNegative(Front(ds));
      ApplyFactor(Discounted(base, Front(ds)), Last(ds));
      TimesUnits(1.0);
    }
  }

  /** How the shares and amounts of `ds` are split between its percentages and its fixed amounts. */
  lemma SplitTotals(ds: seq<Discount>)
    ensures var ps, fs := Filter(ds, IsPercentage), Filter(ds, IsFixed);
            && (forall d :: d in ps ==> d.kind.Percentage?) && (forall d :: d in fs ==> d.kind.FixedAmount?)
            && Shares(ps) == Shares(ds) && Shares(fs) == 1.0 && Sum(fs, Off) == Sum(ds, Off)
  {
    hide Times, Bounded, Apply, Share, Off;
    var ps, fs := Filter(ds, IsPercentage), Filter(ds, IsFixed);
    FilterMembers(ds, IsPercentage);
    FilterMembers(ds, IsFixed);
    PartitionPermutes(ds);
    OnlyPercentages(0.0, ps);
    OnlyFixed(0.0, fs);
    SharesPermute(ps + fs, ds);
    SumPermute(ps + fs, ds, Off);
    SharesConcat(ps, fs);
    SumConcat(ps, fs, Off);
    TimesUnits(Shares(ps));
  }

  lemma LeastAttained(base: real, ds: seq<Discount>)
    requires base >= 0.0
    ensures Discounted(base, PercentagesFirst(ds)) == Least(base, ds)
  {
    hide Times, Bounded, Apply, Share, Shares, Sum, Filter, Discounted, Off;
    var ps, fs := Filter(ds, IsPercentage), Filter(ds, IsFixed);
    SplitTotals(ds);
    Conservation(base, ps);
    DiscountedConcat(base, ps, fs);
    OnlyPercentages(base, ps);
    OnlyFixed(Discounted(base, ps), fs);
    var share := Shares(ds);
    assert Shares(ps) == share;
  }

  lemma GreatestAttained(base: real, ds: seq<Discount>)
    requires base >= 0.0
    ensures Discounted(base, FixedFirst(ds)) == Greatest(base, ds)
  {
    hide Times, Bounded, Apply, Share, Shares, Sum, Filter, Discounted, Off;
    var ps, fs := Filter(ds, IsPercentage), Filter(ds, IsFixed);
    SplitTotals(ds);
    Conservation(base, fs);
    DiscountedConcat(base, fs, ps);
    OnlyFixed(base, fs);
    OnlyPercentages(Discounted(base, fs), ps);
  }

  /** Over all orders of the same rows, taking every percentage first leaves the least and taking
      every fixed amount first leaves the most; no restriction on the values. */
  lemma OrderBounds(base: real, ds: seq<Discount>, es: seq<Discount>)
    requires base >= 0.0 && multiset(ds) == multiset(es)
    ensures Discounted(base, PercentagesFirst(ds)) <= Discounted(base, es) <= Discounted(base, FixedFirst(ds))
  {
    hide Times, Bounded, Apply, Share, Off;
    LeastAttained(base, ds);
    GreatestAttained(base, ds);
    BetweenExtremes(base, es);
    SharesPermute(ds, es);
    SumPermute(ds, es, Off);
  }

  lemma SwapTwo(r: real, f: Discount, p: Discount)
    requires r >= 0.0 && f.kind.FixedAmount? && p.kind.Percentage?
    ensures 0.0 <= Discounted(r, [p, f]) <= Discounted(r, [f, p])
  {
    hide Times, Bounded, Share, Off;
    assert [p] + [f] == [p, f] && [f] + [p] == [f, p];
    DiscountedConcat(r, [p], [f]);
    DiscountedConcat(r, [f], [p]);
    DiscountedOne(r, p);
    DiscountedOne(r, f);
    DiscountedOne(Apply(r, p), f);
    DiscountedOne(Apply(r, f), p);
    ApplyMonotone(r, r, p);
    ApplyMonotone(r, r, f);
    ApplyFactor(r, p);
    ApplyFactor(r, f);
    ApplyFactor(Apply(r, p), f);
    ApplyFactor(Apply(r, f), p);
    FixedBeforeShare(r, Share(p), Apply(r, p), Off(f));
    ApplyMonotone(Apply(r, p), Apply(r, p), f);
  }

  /** Moving a percentage in front of the fixed amount before it never raises the result. */
  lemma SwapLowers(base: real, before: seq<Discount>, f: Discount, p: Discount, after: seq<Discount>)
    requires base >= 0.0 && f.kind.FixedAmount? && p.kind.Percentage?
    ensures Discounted(base, before + [p, f] + after) <= Discounted(base, before + [f, p] + after)
  {
    hide Times, Bounded, Apply;
    var r := Discounted(base, before);
    Conservation(base, before);
    DiscountedConcat(base, before + [p, f], after);
    DiscountedConcat(base, before, [p, f]);
    DiscountedConcat(base, before + [f, p], after);
    DiscountedConcat(base, before, [f, p]);
    SwapTwo(r, f, p);
    DiscountedMonotone(Discounted(r, [p, f]), Discounted(r, [f, p]), after);
  }
}
