/** The markup curve, and the one nanoton amount that settles a TON order. */
module Pricing {
  import opened Domain

  // ---------------------------------------------------------------- rounding

  /** `ROUND_CEILING` to whole units. */
  function Ceiling(x: real): int {
    if (x.Floor as real) == x then x.Floor else x.Floor + 1
  }

  /** `ROUND_HALF_UP` to whole units: halves move away from zero. */
  function HalfUp(x: real): int {
    if x >= 0.0 then (x + 0.5).Floor else -((-x + 0.5).Floor)
  }

  /** `quantize(Decimal("0.01"), ROUND_HALF_UP)`. */
  function Cents(x: real): real {
    HalfUp(x * 100.0) as real / 100.0
  }

  predicate TwoDecimals(x: real) {
    ((x * 100.0).Floor as real) == x * 100.0
  }

  lemma CeilingIsLeast(x: real, n: int)
    ensures n >= Ceiling(x) <==> n as real >= x
  {
  }

  lemma HalfUpIsMonotone(x: real, y: real)
    requires x <= y
    ensures HalfUp(x) <= HalfUp(y)
  {
  }

  lemma CentsIsMonotone(x: real, y: real)
    requires x <= y
    ensures Cents(x) <= Cents(y)
  {
    HalfUpIsMonotone(x * 100.0, y * 100.0);
  }

  lemma CentsKeepsTwoDecimals(x: real)
    requires TwoDecimals(x)
    ensures Cents(x) == x
  {
    var n := (x * 100.0).Floor;
    assert HalfUp(n as real) == n;
  }

  // ---------------------------------------------------------------- markup

  datatype Markups = Markups(
    minStars: int,
    standardThreshold: int,
    largeThreshold: int,
    small: real,
    standard: Option<real>,
    large: Option<real>)

  /** The ordering checks of `validate_runtime`, with markups of at most two decimals. */
  predicate Configured(cfg: Markups) {
    && 0 < cfg.minStars < cfg.standardThreshold < cfg.largeThreshold
    && TwoDecimals(cfg.small)
    && (cfg.standard.Some? ==> TwoDecimals(cfg.standard.value) && cfg.standard.value <= cfg.small)
    && (cfg.large.Some? ==>
          && TwoDecimals(cfg.large.value)
          && cfg.large.value <= (if cfg.standard.Some? then cfg.standard.value else cfg.small))
  }

  /** All that is assumed of the logarithm. */
  ghost predicate IsLogarithm(ln: real -> real) {
    && ln(1.0) == 0.0
    && (forall x, y :: 0.0 < x < y ==> ln(x) < ln(y))
  }

  /** How far, on a logarithmic scale, the order size has come from one threshold to the next. */
  function Progress(ln: real -> real, stars: int, start: int, end: int): real
    requires 0 < start && ln(end as real / start as real) != 0.0
  {
    ln(stars as real / start as real) / ln(end as real / start as real)
  }

  function Blend(startMarkup: real, endMarkup: real, progress: real): real {
    startMarkup + (endMarkup - startMarkup) * progress
  }

  lemma RatioGrows(ln: real -> real, a: int, b: int, start: int)
    requires IsLogarithm(ln) && 0 < start <= a <= b
    ensures 0.0 <= ln(a as real / start as real) <= ln(b as real / start as real)
    ensures start < b ==> ln(b as real / start as real) > 0.0
  {
    DivisionGrows(start as real, a as real, start as real);
    DivisionGrows(a as real, b as real, start as real);
    var x, y := a as real / start as real, b as real / start as real;
    assert x >= 1.0 && y >= x;
    if x > 1.0 { assert ln(1.0) < ln(x); }
    if y > x { assert ln(x) < ln(y); }
  }

  lemma DivisionGrows(a: real, b: real, c: real)
    requires 0.0 < c && a <= b
    ensures a / c <= b / c && c / c == 1.0
    ensures a < b ==> a / c < b / c
  {
  }

  lemma ProgressGrows(ln: real -> real, a: int, b: int, start: int, end: int)
    requires IsLogarithm(ln) && 0 < start <= a <= b <= end && start < end
    ensures ln(end as real / start as real) > 0.0
    ensures 0.0 <= Progress(ln, a, start, end) <= Progress(ln, b, start, end) <= 1.0
    ensures Progress(ln, end, start, end) == 1.0
  {
    RatioGrows(ln, a, b, start);
    RatioGrows(ln, b, end, start);
    RatioGrows(ln, start, end, start);
    var whole := ln(end as real / start as real);
    var low, high := ln(a as real / start as real), ln(b as real / start as real);
    DivisionGrows(low, high, whole);
    DivisionGrows(0.0, low, whole);
    DivisionGrows(high, whole, whole);
  }

  lemma BlendDescends(startMarkup: real, endMarkup: real, progress: real)
    ensures Blend(startMarkup, endMarkup, progress) == startMarkup - (startMarkup - endMarkup) * progress
  {
    NegatedProduct(startMarkup - endMarkup, progress);
    assert endMarkup - startMarkup == -(startMarkup - endMarkup);
  }

  lemma NegatedProduct(drop: real, progress: real)
    ensures (-drop) * progress == -(drop * progress)
  {
  }

  lemma BlendFalls(startMarkup: real, endMarkup: real, x: real, y: real)
    requires endMarkup <= startMarkup && 0.0 <= x <= y <= 1.0
    ensures endMarkup <= Blend(startMarkup, endMarkup, y) <= Blend(startMarkup, endMarkup, x) <= startMarkup
    ensures Blend(startMarkup, endMarkup, 1.0) == endMarkup
  {
    BlendDescends(startMarkup, endMarkup, x);
    BlendDescends(startMarkup, endMarkup, y);
    BlendDescends(startMarkup, endMarkup, 1.0);
    hide Blend;
    ProductFalls(startMarkup - endMarkup, x, y);
  }

  lemma ProductFalls(drop: real, x: real, y: real)
    requires drop >= 0.0 && 0.0 <= x <= y <= 1.0
    ensures 0.0 <= drop * x <= drop * y <= drop
  {
  }

  lemma LogarithmIsPositive(ln: real -> real, start: int, end: int)
    requires IsLogarithm(ln) && 0 < start < end
    ensures ln(end as real / start as real) > 0.0
  {
    RatioGrows(ln, start, end, start);
  }

  ghost function InterpolateMarkup(ln: real -> real, stars: int, start: int, startMarkup: real, end: int, endMarkup: real): real
    requires IsLogarithm(ln) && 0 < start < end
  {
    LogarithmIsPositive(ln, start, end);
    Cents(Blend(startMarkup, endMarkup, Progress(ln, stars, start, end)))
  }

  /** Within a segment the markup never rises, stays between its ends, and reaches the lower one at the threshold. */
  lemma SegmentFalls(ln: real -> real, a: int, b: int, start: int, startMarkup: real, end: int, endMarkup: real)
    requires IsLogarithm(ln) && 0 < start <= a <= b <= end && start < end
    requires endMarkup <= startMarkup && TwoDecimals(startMarkup) && TwoDecimals(endMarkup)
    ensures
      endMarkup
      <= InterpolateMarkup(ln, b, start, startMarkup, end, endMarkup)
      <= InterpolateMarkup(ln, a, start, startMarkup, end, endMarkup)
      <= startMarkup
    ensures InterpolateMarkup(ln, end, start, startMarkup, end, endMarkup) == endMarkup
  {
    ProgressGrows(ln, a, b, start, end);
    var x, y := Progress(ln, a, start, end), Progress(ln, b, start, end);
    BlendFalls(startMarkup, endMarkup, x, y);
    hide Blend, Cents, Progress;
    CentsIsMonotone(endMarkup, Blend(startMarkup, endMarkup, y));
    CentsIsMonotone(Blend(startMarkup, endMarkup, y), Blend(startMarkup, endMarkup, x));
    CentsIsMonotone(Blend(startMarkup, endMarkup, x), startMarkup);
    CentsKeepsTwoDecimals(startMarkup);
    CentsKeepsTwoDecimals(endMarkup);
  }

  ghost function MarkupPercent(ln: real -> real, cfg: Markups, stars: int): real
    requires IsLogarithm(ln) && Configured(cfg)
  {
    if stars <= cfg.minStars then cfg.small
    else if cfg.standard.None? && cfg.large.None? then cfg.small
    else if cfg.standard.Some? && stars <= cfg.standardThreshold then
      InterpolateMarkup(ln, stars, cfg.minStars, cfg.small, cfg.standardThreshold, cfg.standard.value)
    else if cfg.large.None? then (if cfg.standard.None? then cfg.small else cfg.standard.value)
    else if stars >= cfg.largeThreshold then cfg.large.value
    else if cfg.standard.None? then
      InterpolateMarkup(ln, stars, cfg.minStars, cfg.small, cfg.largeThreshold, cfg.large.value)
    else InterpolateMarkup(ln, stars, cfg.standardThreshold, cfg.standard.value, cfg.largeThreshold, cfg.large.value)
  }

  /** The markup an order is never charged less than. */
  function Floor(cfg: Markups): real {
    if cfg.large.Some? then cfg.large.value else if cfg.standard.Some? then cfg.standard.value else cfg.small
  }

  lemma MarkupStaysInside(ln: real -> real, cfg: Markups, stars: int)
    requires IsLogarithm(ln) && Configured(cfg)
    ensures Floor(cfg) <= MarkupPercent(ln, cfg, stars) <= cfg.small
    ensures cfg.standard.Some? && stars <= cfg.standardThreshold ==> MarkupPercent(ln, cfg, stars) >= cfg.standard.value
    ensures cfg.standard.Some? && stars >= cfg.standardThreshold ==> MarkupPercent(ln, cfg, stars) <= cfg.standard.value
  {
    hide InterpolateMarkup, TwoDecimals;
    if cfg.minStars < stars {
      if cfg.standard.Some? && stars <= cfg.standardThreshold {
        SegmentFalls(ln, stars, stars, cfg.minStars, cfg.small, cfg.standardThreshold, cfg.standard.value);
      } else if cfg.large.Some? && stars < cfg.largeThreshold {
        if cfg.standard.None? {
          SegmentFalls(ln, stars, stars, cfg.minStars, cfg.small, cfg.largeThreshold, cfg.large.value);
        } else {
          SegmentFalls(ln, stars, stars, cfg.standardThreshold, cfg.standard.value, cfg.largeThreshold, cfg.large.value);
        }
      }
    }
  }

  /** A bigger order never has a bigger markup, whatever the thresholds and whatever the rounding does. */
  lemma MarkupNeverRises(ln: real -> real, cfg: Markups, a: int, b: int)
    requires IsLogarithm(ln) && Configured(cfg) && a <= b
    ensures MarkupPercent(ln, cfg, b) <= MarkupPercent(ln, cfg, a)
  {
    hide InterpolateMarkup, TwoDecimals;
    MarkupStaysInside(ln, cfg, a);
    MarkupStaysInside(ln, cfg, b);
    if cfg.minStars < a {
      if cfg.standard.Some? && b <= cfg.standardThreshold {
        SegmentFalls(ln, a, b, cfg.minStars, cfg.small, cfg.standardThreshold, cfg.standard.value);
      } else if cfg.large.Some? && b < cfg.largeThreshold {
        if cfg.standard.None? {
          SegmentFalls(ln, a, b, cfg.minStars, cfg.small, cfg.largeThreshold, cfg.large.value);
        } else if cfg.standardThreshold < a {
          SegmentFalls(ln, a, b, cfg.standardThreshold, cfg.standard.value, cfg.largeThreshold, cfg.large.value);
        }
      }
    }
  }

  /** At the smallest order and at the configured thresholds the markup is exactly the configured one. */
  lemma MarkupAtThresholds(ln: real -> real, cfg: Markups)
    requires IsLogarithm(ln) && Configured(cfg)
    ensures MarkupPercent(ln, cfg, cfg.minStars) == cfg.small
    ensures cfg.standard.Some? ==> MarkupPercent(ln, cfg, cfg.standardThreshold) == cfg.standard.value
    ensures cfg.large.Some? ==> MarkupPercent(ln, cfg, cfg.largeThreshold) == cfg.large.value
  {
    hide InterpolateMarkup, TwoDecimals;
    if cfg.standard.Some? {
      SegmentFalls(ln, cfg.minStars, cfg.minStars, cfg.minStars, cfg.small, cfg.standardThreshold, cfg.standard.value);
    }
  }
}
