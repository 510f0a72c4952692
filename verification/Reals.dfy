/**
 The few facts about products of reals that the money laws rest on. Products are written with
 `Times`, so that proofs elsewhere can hide the multiplication and use these facts instead.
 */
module Reals {
  function Max(a: real, b: real): real { if a < b then b else a }

  function Min(a: real, b: real): real { if b < a then b else a }

  function Times(a: real, b: real): real { a * b }

  function Percent(r: real, v: real): real { r * v / 100.0 }

  lemma NonNegative(a: real, b: real)
    requires a >= 0.0 && b >= 0.0
    ensures a * b >= 0.0
  {
  }

  lemma TimesUnits(a: real)
    ensures Times(a, 1.0) == a == Times(1.0, a) && Times(a, 0.0) == 0.0 == Times(0.0, a)
  {
  }

  lemma TimesMonotone(a: real, b: real, k: real)
    requires a <= b && k >= 0.0
    ensures Times(a, k) <= Times(b, k) && Times(k, a) <= Times(k, b)
  {
    NonNegative(b - a, k);
    assert (b - a) * k == b * k - a * k;
  }

  lemma TimesIncreases(a: real, b: real, k: real)
    requires a < b && k > 0.0
    ensures Times(k, a) < Times(k, b)
  {
    assert k * b - k * a == k * (b - a);
  }

  lemma Distribute(a: real, b: real, k: real)
    ensures Times(a - b, k) == Times(a, k) - Times(b, k)
  {
  }

  lemma Associate(a: real, b: real, c: real)
    ensures Times(Times(a, b), c) == Times(a, Times(b, c)) == Times(Times(a, c), b)
  {
    assert a * b * c == a * (b * c) == a * c * b;
  }

  lemma Shrink(a: real, k: real)
    requires 0.0 <= k <= 1.0 && a >= 0.0
    ensures 0.0 <= Times(a, k) <= a
  {
    hide Times;
    TimesMonotone(k, 1.0, a);
    TimesMonotone(0.0, k, a);
    TimesUnits(a);
  }

  /** The share of an amount that `v` percent, clamped to the amount, leaves. */
  function PercentLeft(v: real): (k: real)
    ensures 0.0 <= k <= 1.0
  {
    if v <= 0.0 then 1.0 else if v >= 100.0 then 0.0 else 1.0 - v / 100.0
  }

  lemma PercentIsTimes(r: real, v: real)
    ensures Percent(r, v) == Times(r, v / 100.0) == r - Times(r, 1.0 - v / 100.0)
  {
  }

  lemma ClampedPercent(r: real, v: real)
    requires r >= 0.0
    ensures Max(r - Min(Max(Percent(r, v), 0.0), r), 0.0) == Times(r, PercentLeft(v))
  {
    hide Times, Percent;
    PercentIsTimes(r, v);
    TimesUnits(r);
    if v <= 0.0 {
      TimesMonotone(v / 100.0, 0.0, r);
    } else if v >= 100.0 {
      TimesMonotone(1.0, v / 100.0, r);
    } else {
      Shrink(r, v / 100.0);
    }
  }

  /** A share `p` of `b`, then `s` off; and `s` off, then the share `p`. */
  function ShareThenFixed(b: real, p: real, s: real): real { Max(Times(b, p) - s, 0.0) }

  function FixedThenShare(b: real, p: real, s: real): real { Times(Max(b - s, 0.0), p) }

  lemma NothingTaken(b: real)
    requires b >= 0.0
    ensures ShareThenFixed(b, 1.0, 0.0) == b == FixedThenShare(b, 1.0, 0.0)
  {
  }

  /** A further share `k` keeps a figure between the two extremes. */
  lemma ShareStep(b: real, p: real, s: real, r: real, k: real, p': real, s': real, r': real)
    requires 0.0 <= k <= 1.0 && s >= 0.0
    requires ShareThenFixed(b, p, s) <= r <= FixedThenShare(b, p, s)
    requires p' == Times(p, k) && s' == s && r' == Times(r, k)
    ensures ShareThenFixed(b, p', s') <= r' <= FixedThenShare(b, p', s')
  {
    hide Times;
    var m, t := Max(b - s, 0.0), Times(b, p);
    TimesMonotone(t - s, r, k);
    Distribute(t, s, k);
    Shrink(s, k);
    Shrink(r, k);
    TimesMonotone(r, Times(m, p), k);
    Associate(b, p, k);
    Associate(m, p, k);
  }

  /** A fixed amount taken before a share costs less than the same amount taken after it. */
  lemma FixedBeforeShare(b: real, p: real, r: real, f: real)
    requires 0.0 <= p <= 1.0 && f >= 0.0 && r <= Times(Max(b, 0.0), p)
    ensures Max(r - f, 0.0) <= Times(Max(b - f, 0.0), p)
  {
    hide Times;
    var m := Max(b, 0.0);
    Shrink(m, p);
    Shrink(f, p);
    Shrink(Max(b - f, 0.0), p);
    Distribute(m, f, p);
    if b >= f {
      assert Max(b - f, 0.0) == m - f;
    }
  }

  /** A further fixed amount keeps a figure between the two extremes. */
  lemma FixedStep(b: real, p: real, s: real, r: real, f: real, s': real, r': real)
    requires 0.0 <= p <= 1.0 && f >= 0.0
    requires ShareThenFixed(b, p, s) <= r <= FixedThenShare(b, p, s)
    requires s' == s + f && r' == Max(r - f, 0.0)
    ensures ShareThenFixed(b, p, s') <= r' <= FixedThenShare(b, p, s')
  {
    hide Times;
    FixedBeforeShare(b - s, p, r, f);
    assert b - s - f == b - s';
  }
}
