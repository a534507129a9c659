/** The markup curve is logarithmic: equal ratios of order sizes count the same, up to the rounding of the percents. */
module MarkupCurve {
  import opened Domain
  import opened Pricing

  /** Between two neighbouring thresholds the markup goes from one configured percent to the next. */
  predicate IsSegment(cfg: Markups, start: int, first: real, end: int, last: real) {
    || (cfg.standard == Some(last) && start == cfg.minStars && first == cfg.small && end == cfg.standardThreshold)
    || (&& cfg.standard == Some(first) && cfg.large == Some(last)
        && start == cfg.standardThreshold && end == cfg.largeThreshold)
    || (&& cfg.standard.None? && cfg.large == Some(last)
        && start == cfg.minStars && first == cfg.small && end == cfg.largeThreshold)
  }

  /** Outside the segments the markup is one of the configured percents. */
  lemma MarkupOutsideSegments(ln: real -> real, cfg: Markups, stars: int)
    requires IsLogarithm(ln) && Configured(cfg)
    ensures stars <= cfg.minStars ==> MarkupPercent(ln, cfg, stars) == cfg.small
    ensures cfg.large.Some? && stars >= cfg.largeThreshold ==> MarkupPercent(ln, cfg, stars) == cfg.large.value
    ensures cfg.large.None? && cfg.standard.Some? && stars >= cfg.standardThreshold ==>
              MarkupPercent(ln, cfg, stars) == cfg.standard.value
    ensures cfg.large.None? && cfg.standard.None? ==> MarkupPercent(ln, cfg, stars) == cfg.small
  {
    MarkupAtThresholds(ln, cfg);
    hide InterpolateMarkup;
  }

  /** A percent in hundredths. */
  function Hundredths(percent: real): int {
    (percent * 100.0).Floor
  }

  /** `quantize` goes to the nearest hundredth, and halves move away from zero. */
  lemma CentsAreNearest(x: real)
    ensures TwoDecimals(Cents(x)) && Hundredths(Cents(x)) as real == Cents(x) * 100.0
    ensures -0.005 <= Cents(x) - x <= 0.005
    ensures x >= 0.0 ==> Cents(x) - x > -0.005
    ensures x < 0.0 ==> Cents(x) - x < 0.005
  {
    var n := HalfUp(x * 100.0);
    assert Cents(x) * 100.0 == n as real;
    if x >= 0.0 {
      assert x * 100.0 - 0.5 < n as real <= x * 100.0 + 0.5;
    } else {
      assert x * 100.0 - 0.5 <= n as real < x * 100.0 + 0.5;
    }
  }

  /** The markup before it is rounded. */
  ghost function Exact(ln: real -> real, stars: int, start: int, first: real, end: int, last: real): real
    requires IsLogarithm(ln) && 0 < start < end
  {
    LogarithmIsPositive(ln, start, end);
    first - (first - last) * (ln(stars as real / start as real) / ln(end as real / start as real))
  }

  lemma SegmentIsInterpolated(ln: real -> real, cfg: Markups, stars: int, start: int, first: real, end: int, last: real)
    requires IsLogarithm(ln) && Configured(cfg) && IsSegment(cfg, start, first, end, last) && start <= stars <= end
    ensures 0 < start < end && TwoDecimals(first) && TwoDecimals(last) && last <= first
    ensures MarkupPercent(ln, cfg, stars) == InterpolateMarkup(ln, stars, start, first, end, last)
  {
    MarkupAtThresholds(ln, cfg);
    SegmentStarts(ln, start, first, end, last);
    SegmentFalls(ln, end, end, start, first, end, last);
    hide InterpolateMarkup, TwoDecimals;
  }

  lemma SegmentStarts(ln: real -> real, start: int, first: real, end: int, last: real)
    requires IsLogarithm(ln) && 0 < start < end && TwoDecimals(first)
    ensures InterpolateMarkup(ln, start, start, first, end, last) == first
  {
    LogarithmIsPositive(ln, start, end);
    DivisionGrows(start as real, start as real, start as real);
    assert start as real / start as real == 1.0;
    assert Progress(ln, start, start, end) == 0.0;
    CentsKeepsTwoDecimals(first);
  }

  lemma InterpolationIsRounded(ln: real -> real, stars: int, start: int, first: real, end: int, last: real)
    requires IsLogarithm(ln) && 0 < start < end
    ensures InterpolateMarkup(ln, stars, start, first, end, last) == Cents(Exact(ln, stars, start, first, end, last))
  {
    LogarithmIsPositive(ln, start, end);
    var progress := Progress(ln, stars, start, end);
    BlendDescends(first, last, progress);
    assert Exact(ln, stars, start, first, end, last) == first - (first - last) * progress;
    hide Blend, Cents;
  }

  lemma MarkupIsRounded(ln: real -> real, cfg: Markups, stars: int, start: int, first: real, end: int, last: real)
    requires IsLogarithm(ln) && Configured(cfg) && IsSegment(cfg, start, first, end, last) && start <= stars <= end
    ensures 0 < start < end && TwoDecimals(first) && TwoDecimals(last) && last <= first
    ensures MarkupPercent(ln, cfg, stars) == Cents(Exact(ln, stars, start, first, end, last))
  {
    SegmentIsInterpolated(ln, cfg, stars, start, first, end, last);
    InterpolationIsRounded(ln, stars, start, first, end, last);
    hide *;
  }

  // ---------------------------------------------------------------- the logarithmic law

  lemma Share(part: real, whole: real, drop: real)
    requires whole > 0.0
    ensures drop * (part / whole) * whole == drop * part
  {
    assert part / whole * whole == part;
  }

  lemma ScaledError(error: real, whole: real)
    requires whole > 0.0 && -0.005 <= error <= 0.005
    ensures -0.005 * whole <= error * whole <= 0.005 * whole
  {
  }

  /** `come / all == part / whole`, but for half a cent of `come`. */
  predicate SameShare(come: real, all: real, part: real, whole: real) {
    -0.005 * whole <= come * whole - all * part <= 0.005 * whole
  }

  /**
   Within a segment, and within the half cent of the rounding, the markup has come down by the same share as the order
   size has grown on the logarithmic scale.
   */
  lemma MarkupIsLogarithmic(ln: real -> real, cfg: Markups, stars: int, start: int, first: real, end: int, last: real)
    requires IsLogarithm(ln) && Configured(cfg) && IsSegment(cfg, start, first, end, last) && start <= stars <= end
    ensures 0 < start < end
    ensures
      var whole, part := ln(end as real / start as real), ln(stars as real / start as real);
      && 0.0 <= part <= whole && whole > 0.0
      && SameShare(first - MarkupPercent(ln, cfg, stars), first - last, part, whole)
  {
    MarkupIsRounded(ln, cfg, stars, start, first, end, last);
    hide *;
    PartsAreOrdered(ln, stars, start, end);
    RoundingIsSmall(ln, stars, start, first, end, last);
    var whole, part := ln(end as real / start as real), ln(stars as real / start as real);
    ErrorIsScaled(first, MarkupPercent(ln, cfg, stars), Exact(ln, stars, start, first, end, last), first - last, part, whole);
  }

  predicate IsInterpolated(exact: real, first: real, drop: real, part: real, whole: real)
    requires whole > 0.0
  {
    exact == first - drop * (part / whole)
  }

  lemma PartsAreOrdered(ln: real -> real, stars: int, start: int, end: int)
    requires IsLogarithm(ln) && 0 < start <= stars <= end && start < end
    ensures 0.0 <= ln(stars as real / start as real) <= ln(end as real / start as real)
    ensures ln(end as real / start as real) > 0.0
  {
    RatioGrows(ln, stars, end, start);
  }

  lemma RoundingIsSmall(ln: real -> real, stars: int, start: int, first: real, end: int, last: real)
    requires IsLogarithm(ln) && 0 < start < end
    ensures ln(end as real / start as real) > 0.0
    ensures
      var exact := Exact(ln, stars, start, first, end, last);
      && -0.005 <= Cents(exact) - exact <= 0.005
      && IsInterpolated(exact, first, first - last, ln(stars as real / start as real), ln(end as real / start as real))
  {
    LogarithmIsPositive(ln, start, end);
    CentsAreNearest(Exact(ln, stars, start, first, end, last));
    hide Cents;
  }

  lemma ErrorIsScaled(first: real, markup: real, exact: real, drop: real, part: real, whole: real)
    requires whole > 0.0 && IsInterpolated(exact, first, drop, part, whole) && -0.005 <= markup - exact <= 0.005
    ensures SameShare(first - markup, drop, part, whole)
  {
    var share, error := drop * (part / whole), exact - markup;
    Share(part, whole, drop);
    ScaledError(error, whole);
    Distribute(first, markup, exact, whole);
    SameProduct(first - exact, share, whole);
    assert share * whole == drop * part;
  }

  lemma SameProduct(a: real, b: real, whole: real)
    requires a == b
    ensures a * whole == b * whole
  {
  }

  lemma Distribute(first: real, markup: real, exact: real, whole: real)
    ensures (first - markup) * whole == (first - exact) * whole + (exact - markup) * whole
  {
  }

  /** What is used of the logarithm beside its growth. */
  ghost predicate TurnsProductsIntoSums(ln: real -> real) {
    forall x, y {:trigger ln(x * y)} :: x > 0.0 && y > 0.0 ==> ln(x * y) == ln(x) + ln(y)
  }

  lemma RatiosMultiply(a: real, b: real, c: real, d: real, start: real)
    requires start > 0.0 && a > 0.0 && b > 0.0 && c > 0.0 && d > 0.0 && a * b == c * d
    ensures (a / start) * (b / start) == (c / start) * (d / start)
    ensures a / start > 0.0 && b / start > 0.0 && c / start > 0.0 && d / start > 0.0
  {
    ProductOfQuotients(a, b, start);
    ProductOfQuotients(c, d, start);
    PositiveQuotient(a, start);
    PositiveQuotient(b, start);
    PositiveQuotient(c, start);
    PositiveQuotient(d, start);
  }

  lemma PositiveQuotient(a: real, start: real)
    requires a > 0.0 && start > 0.0
    ensures a / start > 0.0
  {
  }

  lemma ProductOfQuotients(a: real, b: real, start: real)
    requires start > 0.0
    ensures (a / start) * (b / start) == (a * b) / (start * start)
  {
    var x, y := a / start, b / start;
    assert x * start == a && y * start == b;
    assert a * b == (x * y) * (start * start) by { Regroup(x, y, start); }
    var square := start * start;
    PositiveProduct(start, start, square);
    Cancel(x * y, square);
  }

  lemma PositiveProduct(a: real, b: real, product: real)
    requires a > 0.0 && b > 0.0 && product == a * b
    ensures product > 0.0
  {
    assert a * b > 0.0;
  }

  lemma Regroup(x: real, y: real, s: real)
    ensures (x * s) * (y * s) == (x * y) * (s * s)
  {
  }

  lemma Cancel(x: real, s: real)
    requires s > 0.0
    ensures x * s / s == x
  {
  }

  /** On the logarithmic scale, equal products of order sizes have equal sums. */
  lemma LogarithmsAdd(ln: real -> real, a: int, b: int, c: int, d: int, start: int)
    requires TurnsProductsIntoSums(ln) && 0 < start && 0 < a && 0 < b && 0 < c && 0 < d && a * b == c * d
    ensures ln(a as real / start as real) + ln(b as real / start as real)
            == ln(c as real / start as real) + ln(d as real / start as real)
  {
    assert a as real * b as real == (a * b) as real && c as real * d as real == (c * d) as real;
    RatiosMultiply(a as real, b as real, c as real, d as real, start as real);
    var x, y, z, w := a as real / start as real, b as real / start as real, c as real / start as real, d as real / start as real;
    var product := x * y;
    LogarithmAdds(ln, x, y, product);
    LogarithmAdds(ln, z, w, product);
  }

  lemma LogarithmAdds(ln: real -> real, x: real, y: real, product: real)
    requires TurnsProductsIntoSums(ln) && x > 0.0 && y > 0.0 && product == x * y
    ensures ln(product) == ln(x) + ln(y)
  {
  }

  lemma ExactAdds(ln: real -> real, a: int, b: int, c: int, d: int, start: int, first: real, end: int, last: real)
    requires IsLogarithm(ln) && TurnsProductsIntoSums(ln) && 0 < start < end
    requires 0 < a && 0 < b && 0 < c && 0 < d && a * b == c * d
    ensures Exact(ln, a, start, first, end, last) + Exact(ln, b, start, first, end, last)
            == Exact(ln, c, start, first, end, last) + Exact(ln, d, start, first, end, last)
  {
    var whole, drop := ln(end as real / start as real), first - last;
    var la, lb := ln(a as real / start as real), ln(b as real / start as real);
    var lc, ld := ln(c as real / start as real), ln(d as real / start as real);
    LogarithmIsPositive(ln, start, end);
    LogarithmsAdd(ln, a, b, c, d, start);
    RoundingIsSmall(ln, a, start, first, end, last);
    RoundingIsSmall(ln, b, start, first, end, last);
    RoundingIsSmall(ln, c, start, first, end, last);
    RoundingIsSmall(ln, d, start, first, end, last);
    hide *;
    InterpolationsAdd(Exact(ln, a, start, first, end, last), Exact(ln, b, start, first, end, last),
                      Exact(ln, c, start, first, end, last), Exact(ln, d, start, first, end, last),
                      first, drop, la, lb, lc, ld, whole);
  }

  lemma InterpolationsAdd(ea: real, eb: real, ec: real, ed: real, first: real, drop: real, a: real, b: real, c: real, d: real,
                          whole: real)
    requires whole > 0.0 && a + b == c + d
    requires IsInterpolated(ea, first, drop, a, whole) && IsInterpolated(eb, first, drop, b, whole)
    requires IsInterpolated(ec, first, drop, c, whole) && IsInterpolated(ed, first, drop, d, whole)
    ensures ea + eb == ec + ed
  {
    var sa, sb, sc, sd := drop * (a / whole), drop * (b / whole), drop * (c / whole), drop * (d / whole);
    SharesAdd(a, b, c, d, whole, drop);
    assert ea == first - sa && eb == first - sb && ec == first - sc && ed == first - sd;
  }

  lemma SharesAdd(a: real, b: real, c: real, d: real, whole: real, drop: real)
    requires whole > 0.0 && a + b == c + d
    ensures drop * (a / whole) + drop * (b / whole) == drop * (c / whole) + drop * (d / whole)
  {
    assert a / whole + b / whole == c / whole + d / whole;
    assert drop * (a / whole) + drop * (b / whole) == drop * (a / whole + b / whole);
    assert drop * (c / whole) + drop * (d / whole) == drop * (c / whole + d / whole);
  }

  /** Rounding changes two equal differences by at most a cent against each other. */
  lemma RoundedDifferences(a: real, b: real, c: real, d: real)
    requires a - b == c - d && a >= 0.0 && b >= 0.0 && c >= 0.0 && d >= 0.0
    ensures -0.01 <= (Cents(a) - Cents(b)) - (Cents(c) - Cents(d)) <= 0.01
  {
    CentsAreNearest(a);
    CentsAreNearest(b);
    CentsAreNearest(c);
    CentsAreNearest(d);
    var n := (Hundredths(Cents(a)) - Hundredths(Cents(b))) - (Hundredths(Cents(c)) - Hundredths(Cents(d)));
    assert n as real == ((Cents(a) - Cents(b)) - (Cents(c) - Cents(d))) * 100.0;
    hide *;
    assert -1 <= n <= 1;
  }

  lemma ExactIsInside(ln: real -> real, stars: int, start: int, first: real, end: int, last: real)
    requires IsLogarithm(ln) && 0 < start <= stars <= end && start < end && last <= first
    ensures last <= Exact(ln, stars, start, first, end, last) <= first
    ensures Exact(ln, start, start, first, end, last) == first && Exact(ln, end, start, first, end, last) == last
  {
    ProgressGrows(ln, stars, stars, start, end);
    var progress := Progress(ln, stars, start, end);
    ProductFalls(first - last, progress, 1.0);
    DivisionGrows(start as real, start as real, start as real);
    assert Exact(ln, stars, start, first, end, last) == first - (first - last) * progress;
    assert Exact(ln, end, start, first, end, last) == first - (first - last) * Progress(ln, end, start, end);
    assert Exact(ln, start, start, first, end, last) == first - (first - last) * Progress(ln, start, start, end);
  }

  /**
   Equal multipliers of the order size are worth the same: where b is to a what d is to c, the markup comes down by the
   same amount from a to b as from c to d, within one cent. No configured percent is negative.
   */
  lemma EqualRatiosCountTheSame(ln: real -> real, cfg: Markups, a: int, b: int, c: int, d: int, start: int, first: real,
                                end: int, last: real)
    requires IsLogarithm(ln) && TurnsProductsIntoSums(ln) && Configured(cfg) && IsSegment(cfg, start, first, end, last)
    requires start <= a <= end && start <= b <= end && start <= c <= end && start <= d <= end && b * c == a * d
    requires 0.0 <= last
    ensures
      -0.01
      <= (MarkupPercent(ln, cfg, a) - MarkupPercent(ln, cfg, b)) - (MarkupPercent(ln, cfg, c) - MarkupPercent(ln, cfg, d))
      <= 0.01
  {
    MarkupIsRounded(ln, cfg, a, start, first, end, last);
    MarkupIsRounded(ln, cfg, b, start, first, end, last);
    MarkupIsRounded(ln, cfg, c, start, first, end, last);
    MarkupIsRounded(ln, cfg, d, start, first, end, last);
    hide *;
    ExactIsInside(ln, a, start, first, end, last);
    ExactIsInside(ln, b, start, first, end, last);
    ExactIsInside(ln, c, start, first, end, last);
    ExactIsInside(ln, d, start, first, end, last);
    ExactAdds(ln, a, d, b, c, start, first, end, last);
    RoundedDifferences(Exact(ln, a, start, first, end, last), Exact(ln, b, start, first, end, last),
                       Exact(ln, c, start, first, end, last), Exact(ln, d, start, first, end, last));
  }

  /** Two orders that multiply to the product of the thresholds lie opposite each other on the curve. */
  lemma OppositeOrdersAddUp(ln: real -> real, cfg: Markups, a: int, b: int, start: int, first: real, end: int, last: real)
    requires IsLogarithm(ln) && TurnsProductsIntoSums(ln) && Configured(cfg) && IsSegment(cfg, start, first, end, last)
    requires start <= a <= end && start <= b <= end && a * b == start * end && 0.0 <= last
    ensures -0.01 <= MarkupPercent(ln, cfg, a) + MarkupPercent(ln, cfg, b) - (first + last) <= 0.01
  {
    SegmentIsInterpolated(ln, cfg, start, start, first, end, last);
    MarkupAtThresholds(ln, cfg);
    assert MarkupPercent(ln, cfg, start) == first && MarkupPercent(ln, cfg, end) == last;
    hide *;
    EqualRatiosCountTheSame(ln, cfg, a, start, end, b, start, first, end, last);
  }
}
