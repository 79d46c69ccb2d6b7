/** Axis planning (`Plot::digest_tick_settings` and `Axis` in src/lib.rs):
    the data extent, the outward snapping of unpinned limits to the tick
    interval, the final interval, the tick count and its direction, the
    `Axis` record with its labels, and the margins. */
module Axes {
  import opened Wrappers
  import opened Numeric
  import opened Ticks
  import opened Labels

  // ---------------------------------------------------------------------
  // The data extent: `max.x = max.x.max(x)` and friends over the zipped data

  /** The running `f64::max` from negative infinity. */
  function FoldMax(s: seq<Float>): (r: Float)
    ensures !r.NaN?
    ensures r == NegInf || r in s
  {
    if |s| == 0 then NegInf
    else
      assert s == s[..|s| - 1] + [s[|s| - 1]];
      FMax(FoldMax(s[..|s| - 1]), s[|s| - 1])
  }

  /** The running `f64::min` from positive infinity. */
  function FoldMin(s: seq<Float>): (r: Float)
    ensures !r.NaN?
    ensures r == PosInf || r in s
  {
    if |s| == 0 then PosInf
    else
      assert s == s[..|s| - 1] + [s[|s| - 1]];
      FMin(FoldMin(s[..|s| - 1]), s[|s| - 1])
  }

  /** The scan's maximum ignores NaN, is +inf exactly when +inf occurs, and is
      otherwise finite exactly when a finite value occurs, and then it is the
      largest finite value. */
  lemma {:induction false} FoldMaxExtent(s: seq<Float>)
    ensures !FoldMax(s).NaN?
    ensures FoldMax(s).PosInf? <==> PosInf in s
    ensures FoldMax(s).Finite? <==> |FiniteValues(s)| > 0 && PosInf !in s
    ensures FoldMax(s).Finite? ==> FoldMax(s).v == SeqMax(FiniteValues(s))
  {
    if |s| > 0 {
      var p, x := s[..|s| - 1], s[|s| - 1];
      assert s == p + [x];
      FoldMaxExtent(p);
      if x.Finite? && FoldMax(p).Finite? {
        SeqMaxAppend(FiniteValues(p), x.v);
      }
    }
  }

  /** The mirror image of `FoldMaxExtent` for the scan's minimum. */
  lemma {:induction false} FoldMinExtent(s: seq<Float>)
    ensures !FoldMin(s).NaN?
    ensures FoldMin(s).NegInf? <==> NegInf in s
    ensures FoldMin(s).Finite? <==> |FiniteValues(s)| > 0 && NegInf !in s
    ensures FoldMin(s).Finite? ==> FoldMin(s).v == SeqMin(FiniteValues(s))
  {
    if |s| > 0 {
      var p, x := s[..|s| - 1], s[|s| - 1];
      assert s == p + [x];
      FoldMinExtent(p);
      if x.Finite? && FoldMin(p).Finite? {
        SeqMinAppend(FiniteValues(p), x.v);
      }
    }
  }

  /** The extent of a coordinate is finite exactly when the data hold a
      finite value and no infinity; NaN values are skipped. */
  lemma DataExtentFinite(s: seq<Float>)
    ensures FoldMin(s).Finite? && FoldMax(s).Finite? <==>
      |FiniteValues(s)| > 0 && PosInf !in s && NegInf !in s
    ensures FoldMin(s).Finite? && FoldMax(s).Finite? ==> FoldMin(s).v <= FoldMax(s).v
  {
    FoldMaxExtent(s);
    FoldMinExtent(s);
  }

  /** The number of pairs `x_values.iter().zip(y_values.iter())` yields. */
  function ZipLength(xs: seq<Float>, ys: seq<Float>): (n: nat)
    ensures n <= |xs| && n <= |ys| && (n == |xs| || n == |ys|)
  {
    if |xs| < |ys| then |xs| else |ys|
  }

  datatype FPoint = FPoint(x: Float, y: Float)

  /** The min/max scan at the top of `digest_tick_settings`. */
  method ScanExtents(xs: seq<Float>, ys: seq<Float>) returns (lo: FPoint, hi: FPoint)
    ensures var n := ZipLength(xs, ys);
      lo == FPoint(FoldMin(xs[..n]), FoldMin(ys[..n])) &&
      hi == FPoint(FoldMax(xs[..n]), FoldMax(ys[..n]))
  {
    hi := FPoint(NegInf, NegInf);
    lo := FPoint(PosInf, PosInf);
    var n := ZipLength(xs, ys);
    var k := 0;
    while k < n
      invariant k <= n
      invariant lo == FPoint(FoldMin(xs[..k]), FoldMin(ys[..k]))
      invariant hi == FPoint(FoldMax(xs[..k]), FoldMax(ys[..k]))
    {
      assert xs[..k + 1][..k] == xs[..k];
      assert ys[..k + 1][..k] == ys[..k];
      hi := FPoint(FMax(hi.x, xs[k]), FMax(hi.y, ys[k]));
      lo := FPoint(FMin(lo.x, xs[k]), FMin(lo.y, ys[k]));
      k := k + 1;
    }
    assert xs[..n] == xs[..k] && ys[..n] == ys[..k];
  }

  // ---------------------------------------------------------------------
  // Limits, interval and tick count of one axis

  /** The user's settings for one axis: a pinned tick interval and pinned
      limits, each optional. */
  datatype AxisSettings = AxisSettings(interval: Option<real>, lim: Option<(real, real)>)

  /** What `digest_tick_settings` decides for one axis. */
  datatype AxisPlan = AxisPlan(limits: (real, real), interval: real, numTicks: nat)

  /** The assertion of `digest_tick_settings`: the axis has a finite data
      extent or pinned limits. */
  predicate Determined(s: AxisSettings, lo: Float, hi: Float)
  {
    s.lim.Some? || (lo.Finite? && hi.Finite?)
  }

  /** The inputs for which the arithmetic stays away from log10 0 and from a
      zero or negative interval: a pinned interval is positive, and an
      interval to be computed is computed over a range that is not empty. */
  predicate WellPosed(s: AxisSettings, lo: Float, hi: Float)
  {
    && (s.interval.Some? ==> s.interval.value > 0.0)
    && (s.interval.None? && s.lim.Some? ==> s.lim.value.0 != s.lim.value.1)
    && (s.interval.None? && s.lim.None? && lo.Finite? && hi.Finite? ==> lo.v < hi.v)
  }

  /** The interval used to snap the limits: the pinned one, or one computed
      from the data range. */
  function ProvisionalInterval(s: AxisSettings, lo: real, hi: real): (i: real)
    requires s.interval.Some? ==> s.interval.value > 0.0
    requires s.interval.None? ==> lo != hi
    ensures i > 0.0
    ensures s.interval.Some? ==> i == s.interval.value
    ensures s.interval.None? ==> i in Candidates(OrderOfMagnitude(hi - lo))
  {
    if s.interval.Some? then s.interval.value else ComputeTickInterval(hi - lo)
  }

  /** `(floor(lo / i) * i, ceil(hi / i) * i)`: the nearest multiples of i at
      or outside [lo, hi], each less than one interval away. */
  function SnapOutward(lo: real, hi: real, i: real): (lims: (real, real))
    requires i > 0.0
    ensures lims.0 <= lo < lims.0 + i
    ensures lims.1 - i < hi <= lims.1
    ensures (lims.0 / i).Floor as real == lims.0 / i
    ensures (lims.1 / i).Floor as real == lims.1 / i
  {
    var f := (lo / i).Floor as real;
    var c := Ceil(hi / i) as real;
    QuotientTimes(lo, i);
    QuotientTimes(hi, i);
    LowerBound(lo / i, lo, i, f);
    StrictUpper(lo / i, lo, i, f);
    UpperBound(hi / i, hi, i, c);
    StrictLower(hi / i, hi, i, c);
    DivCancel(f, i);
    DivCancel(c, i);
    (f * i, c * i)
  }

  // One-fact steps of real arithmetic with a positive factor i.

  lemma ScaleLe(a: real, b: real, i: real)
    requires i > 0.0 && a <= b
    ensures a * i <= b * i
  {
  }

  lemma ScaleLt(a: real, b: real, i: real)
    requires i > 0.0 && a < b
    ensures a * i < b * i
  {
  }

  lemma QuotientTimes(x: real, i: real)
    requires i != 0.0
    ensures (x / i) * i == x
  {
  }

  lemma DivCancel(k: real, i: real)
    requires i != 0.0
    ensures (k * i) / i == k
  {
  }

  lemma LowerBound(q: real, x: real, i: real, k: real)
    requires i > 0.0 && q * i == x && k <= q
    ensures k * i <= x
  {
    ScaleLe(k, q, i);
  }

  lemma StrictUpper(q: real, x: real, i: real, k: real)
    requires i > 0.0 && q * i == x && q < k + 1.0
    ensures x < k * i + i
  {
    ScaleLt(q, k + 1.0, i);
    assert (k + 1.0) * i == k * i + i;
  }

  lemma UpperBound(q: real, x: real, i: real, k: real)
    requires i > 0.0 && q * i == x && q <= k
    ensures x <= k * i
  {
    ScaleLe(q, k, i);
  }

  lemma StrictLower(q: real, x: real, i: real, k: real)
    requires i > 0.0 && q * i == x && k - 1.0 < q
    ensures k * i - i < x
  {
    ScaleLt(k - 1.0, q, i);
    assert (k - 1.0) * i == k * i - i;
  }

  /** The limits of the axis: the pinned ones, or the data extent snapped
      outward to the provisional interval. */
  function ResolveLimits(s: AxisSettings, lo: Float, hi: Float): (lims: (real, real))
    requires Determined(s, lo, hi) && WellPosed(s, lo, hi)
    ensures s.interval.None? ==> lims.0 != lims.1
  {
    if s.lim.Some? then s.lim.value
    else SnapOutward(lo.v, hi.v, ProvisionalInterval(s, lo.v, hi.v))
  }

  /** The interval recomputed from the final limits, unless pinned. */
  function FinalInterval(s: AxisSettings, lims: (real, real)): (i: real)
    requires s.interval.Some? ==> s.interval.value > 0.0
    requires s.interval.None? ==> lims.0 != lims.1
    ensures i > 0.0
    ensures s.interval.Some? ==> i == s.interval.value
    ensures s.interval.None? ==> i in Candidates(OrderOfMagnitude(lims.1 - lims.0))
  {
    if s.interval.Some? then s.interval.value else ComputeTickInterval(lims.1 - lims.0)
  }

  /** `f64::signum` on a value that is not NaN; +0 counts as positive. */
  function Signum(x: real): (r: real)
    ensures r == 1.0 || r == -1.0
    ensures r == -1.0 <==> x < 0.0
  {
    if x < 0.0 then -1.0 else 1.0
  }

  /** A stand-in for the `to_u64` conversion, whose definition is not part of
      this model: it takes a non-negative value to a natural number less than
      one away, so a whole number is converted exactly. */
  ghost predicate IsToU64(toU64: real -> nat)
  {
    forall x: real :: x >= 0.0 ==> x - 1.0 < toU64(x) as real < x + 1.0
  }

  /** One axis of `digest_tick_settings`: None when the assertion fails. */
  function PlanAxis(s: AxisSettings, lo: Float, hi: Float, toU64: real -> nat): (r: Option<AxisPlan>)
    requires WellPosed(s, lo, hi)
    ensures r.Some? <==> Determined(s, lo, hi)
    ensures r.Some? ==> r.value.numTicks >= 1 && r.value.interval != 0.0
    ensures r.Some? && IsToU64(toU64) ==> LastTickWithinInterval(r.value)
  {
    if !Determined(s, lo, hi) then None
    else Some(PlanWithin(s, ResolveLimits(s, lo, hi), toU64))
  }

  /** The interval and tick count for final limits: the interval signed by
      the direction of the limits, and one tick more than the converted
      number of intervals between them. */
  function PlanWithin(s: AxisSettings, lims: (real, real), toU64: real -> nat): (p: AxisPlan)
    requires s.interval.Some? ==> s.interval.value > 0.0
    requires s.interval.None? ==> lims.0 != lims.1
    ensures p.limits == lims
    ensures p.numTicks >= 1 && p.interval != 0.0
    ensures p.numTicks == toU64(Abs(lims.1 - lims.0) / Abs(p.interval)) + 1
    ensures IsToU64(toU64) ==> LastTickWithinInterval(p)
  {
    PlanFor(lims, FinalInterval(s, lims), toU64)
  }

  /** The plan for final limits and the positive interval i. */
  function PlanFor(lims: (real, real), i: real, toU64: real -> nat): (p: AxisPlan)
    requires i > 0.0
    ensures p.limits == lims && Abs(p.interval) == i
    ensures p.numTicks == toU64(Abs(lims.1 - lims.0) / i) + 1
    ensures IsToU64(toU64) ==> LastTickWithinInterval(p)
  {
    var c := toU64(Abs(lims.1 - lims.0) / i);
    var p := AxisPlan(lims, i * Signum(lims.1 - lims.0), c + 1);
    SignedInterval(i, lims.1 - lims.0);
    LastTickOffset(p, i, c, toU64);
    p
  }

  /** Pinned limits and a pinned interval are used unchanged (the interval
      up to its sign); unpinned limits enclose the data extent and are whole
      multiples of the provisional interval. */
  lemma PlanUsesSettings(s: AxisSettings, lo: Float, hi: Float, toU64: real -> nat)
    requires WellPosed(s, lo, hi) && Determined(s, lo, hi)
    ensures var p := PlanAxis(s, lo, hi, toU64).value;
      && (s.lim.Some? ==> p.limits == s.lim.value)
      && (s.interval.Some? ==> Abs(p.interval) == s.interval.value)
      && (s.lim.None? ==>
            var i := ProvisionalInterval(s, lo.v, hi.v);
            && p.limits.0 <= lo.v < p.limits.0 + i
            && p.limits.1 - i < hi.v <= p.limits.1
            && (p.limits.0 / i).Floor as real == p.limits.0 / i
            && (p.limits.1 / i).Floor as real == p.limits.1 / i)
  {
    var lims := ResolveLimits(s, lo, hi);
    var i := FinalInterval(s, lims);
    var sg := Signum(lims.1 - lims.0);
    assert Abs(i * sg) == i;
  }

  /** The final interval keeps the magnitude chosen for the final limits and
      takes the direction from `limits.0` towards `limits.1`, so the ticks
      walk towards `limits.1` even for inverted limits. */
  lemma PlanDirection(s: AxisSettings, lo: Float, hi: Float, toU64: real -> nat)
    requires WellPosed(s, lo, hi) && Determined(s, lo, hi)
    ensures var p := PlanAxis(s, lo, hi, toU64).value;
      && Abs(p.interval) == FinalInterval(s, p.limits)
      && (p.limits.1 < p.limits.0 ==> p.interval < 0.0)
      && (p.limits.0 <= p.limits.1 ==> p.interval > 0.0)
  {
    var lims := ResolveLimits(s, lo, hi);
    SignedInterval(FinalInterval(s, lims), lims.1 - lims.0);
  }

  /** Multiplying a positive interval by the signum of x. */
  lemma SignedInterval(i: real, x: real)
    requires i > 0.0
    ensures Abs(i * Signum(x)) == i
    ensures x < 0.0 ==> i * Signum(x) < 0.0
    ensures x >= 0.0 ==> i * Signum(x) > 0.0
  {
  }

  /** The last tick of the plan lies less than one interval from `limits.1`. */
  predicate LastTickWithinInterval(p: AxisPlan)
    requires p.numTicks >= 1
  {
    Abs(TickValue(p.limits, p.interval, p.numTicks - 1) - p.limits.1) < Abs(p.interval)
  }

  /** For a plan whose interval is the positive i signed by the limits and
      whose count is one more than the converted number of intervals, the
      last tick lies less than one interval from `limits.1`. */
  lemma LastTickOffset(p: AxisPlan, i: real, c: nat, toU64: real -> nat)
    requires i > 0.0
    requires c == toU64(Abs(p.limits.1 - p.limits.0) / i)
    requires p.interval == i * Signum(p.limits.1 - p.limits.0) && p.numTicks == c + 1
    ensures IsToU64(toU64) ==> LastTickWithinInterval(p)
  {
    if IsToU64(toU64) {
      LastTickArithmetic(p, i, c);
    }
  }

  lemma LastTickArithmetic(p: AxisPlan, i: real, c: nat)
    requires i > 0.0
    requires var q := Abs(p.limits.1 - p.limits.0) / i; q - 1.0 < c as real < q + 1.0
    requires p.interval == i * Signum(p.limits.1 - p.limits.0) && p.numTicks == c + 1
    ensures LastTickWithinInterval(p)
  {
    var l0, l1 := p.limits.0, p.limits.1;
    var ci := c as real * i;
    ScaledError(c as real, Abs(l1 - l0), i);
    if l1 - l0 < 0.0 {
      assert p.interval == -i;
      assert TickValue(p.limits, p.interval, p.numTicks - 1) - l1 == (l0 - l1) - ci;
    } else {
      assert p.interval == i;
      assert TickValue(p.limits, p.interval, p.numTicks - 1) - l1 == ci - (l1 - l0);
    }
  }

  /** |c - d / i| < 1 scales to |c * i - d| < i for i > 0. */
  lemma ScaledError(c: real, d: real, i: real)
    requires i > 0.0 && d / i - 1.0 < c < d / i + 1.0
    ensures c * i - d < i && d - c * i < i
  {
    QuotientTimes(d, i);
    StrictUpper(c, c * i, i, d / i);
    StrictLower(c, c * i, i, d / i);
  }

  // ---------------------------------------------------------------------
  // The `Axis` record

  /** `struct Axis`. */
  class Axis {
    var limits: (real, real)
    var tickInterval: real
    var numTicks: nat
    var tickLabels: seq<Label>
    var margin: real

    /** The struct literal of `digest_tick_settings`: no labels, margin 0. */
    constructor (plan: AxisPlan)
      ensures limits == plan.limits && tickInterval == plan.interval && numTicks == plan.numTicks
      ensures tickLabels == [] && margin == 0.0
    {
      limits := plan.limits;
      tickInterval := plan.interval;
      numTicks := plan.numTicks;
      tickLabels := [];
      margin := 0.0;
    }

    /** `Axis::tick_labels`: overwrites the labels with one per tick. */
    method TickLabels()
      requires tickInterval != 0.0
      modifies this`tickLabels
      ensures tickLabels == TickLabelsOf(limits, tickInterval, numTicks)
    {
      var labels: seq<Label> := [];
      var i: nat := 0;
      while i < numTicks
        invariant i <= numTicks
        invariant labels == TickLabelsOf(limits, tickInterval, i)
      {
        labels := labels + [FormatTick(TickValue(limits, tickInterval, i), tickInterval, limits)];
        i := i + 1;
      }
      tickLabels := labels;
    }
  }

  // ---------------------------------------------------------------------
  // Margins

  /** The x margin: one and a half label heights for the axis label, one for
      the tick labels, the tick length and one more font size. */
  function XMargin(fontSize: real, tickLength: real): (m: real)
    ensures m == 3.5 * fontSize + tickLength
  {
    (fontSize * 1.5) + fontSize + tickLength + fontSize
  }

  /** The y margin: room for the widest tick label next to three font sizes
      and the tick length (`float_max` of the label widths). */
  function YMargin(fontSize: real, tickLength: real, widths: seq<real>): (m: real)
    requires |widths| > 0
    ensures forall w :: w in widths ==> m >= 3.0 * fontSize + w + tickLength
    ensures exists w :: w in widths && m == 3.0 * fontSize + w + tickLength
  {
    assert SeqMax(widths) in widths;
    fontSize * 2.0 + SeqMax(widths) + tickLength + fontSize
  }

  /** The measured widths of the labels, in order. */
  function LabelWidths(labels: seq<Label>, widthOf: Label -> real): (ws: seq<real>)
    ensures |ws| == |labels|
    ensures forall k :: 0 <= k < |labels| ==> ws[k] == widthOf(labels[k])
  {
    seq(|labels|, k requires 0 <= k < |labels| => widthOf(labels[k]))
  }

  // ---------------------------------------------------------------------
  // The worked case: y = x^2 sampled at x = 0, 1, 2, 3, 4, nothing pinned

  const SquaresX: seq<Float> := [Finite(0.0), Finite(1.0), Finite(2.0), Finite(3.0), Finite(4.0)]
  const SquaresY: seq<Float> := [Finite(0.0), Finite(1.0), Finite(4.0), Finite(9.0), Finite(16.0)]

  /** One step of the scan over a prefix. */
  lemma FoldStep(s: seq<Float>, k: nat)
    requires k < |s|
    ensures FoldMax(s[..k + 1]) == FMax(FoldMax(s[..k]), s[k])
    ensures FoldMin(s[..k + 1]) == FMin(FoldMin(s[..k]), s[k])
  {
    assert s[..k + 1][..k] == s[..k];
  }

  /** The scan of an increasing run of finite values ends at its first and
      last values. */
  lemma {:induction false} FoldOfIncreasing(s: seq<Float>)
    requires |s| > 0
    requires forall k :: 0 <= k < |s| ==> s[k].Finite?
    requires forall k :: 0 < k < |s| ==> s[k - 1].v < s[k].v
    ensures FoldMin(s) == s[0] && FoldMax(s) == s[|s| - 1]
  {
    if |s| > 1 {
      var p := s[..|s| - 1];
      FoldOfIncreasing(p);
      assert p[|p| - 1] == s[|s| - 2];
    }
  }

  lemma SquaresExtent()
    ensures FoldMin(SquaresX) == Finite(0.0) && FoldMax(SquaresX) == Finite(4.0)
    ensures FoldMin(SquaresY) == Finite(0.0) && FoldMax(SquaresY) == Finite(16.0)
  {
    FoldOfIncreasing(SquaresX);
    FoldOfIncreasing(SquaresY);
  }

  /** When increasing limits span a whole number n of intervals, the plan
      has exactly n + 1 ticks, the last one on `limits.1`. */
  lemma ExactTickCount(s: AxisSettings, lims: (real, real), toU64: real -> nat, n: nat)
    requires s.interval.Some? ==> s.interval.value > 0.0
    requires s.interval.None? ==> lims.0 != lims.1
    requires IsToU64(toU64) && lims.0 <= lims.1
    requires (lims.1 - lims.0) / FinalInterval(s, lims) == n as real
    ensures PlanWithin(s, lims, toU64) == AxisPlan(lims, FinalInterval(s, lims), n + 1)
  {
    var i := FinalInterval(s, lims);
    assert Abs(lims.1 - lims.0) / i == n as real;
    assert toU64(n as real) == n;
  }

  lemma SnapZeroFour()
    ensures SnapOutward(0.0, 4.0, 1.0) == (0.0, 4.0)
  {
    var lims := SnapOutward(0.0, 4.0, 1.0);
    assert lims.0 / 1.0 == lims.0 && lims.1 / 1.0 == lims.1;
  }

  lemma SnapZeroSixteen()
    ensures SnapOutward(0.0, 16.0, 5.0) == (0.0, 20.0)
  {
    var lims := SnapOutward(0.0, 16.0, 5.0);
    assert (lims.0 / 5.0).Floor == 0 && (lims.1 / 5.0).Floor == 4;
  }

  lemma SquaresLimitsX()
    ensures ResolveLimits(AxisSettings(None, None), Finite(0.0), Finite(4.0)) == (0.0, 4.0)
    ensures FinalInterval(AxisSettings(None, None), (0.0, 4.0)) == 1.0
  {
    TickIntervalOfFour();
    SnapZeroFour();
  }

  lemma SquaresLimitsY()
    ensures ResolveLimits(AxisSettings(None, None), Finite(0.0), Finite(16.0)) == (0.0, 20.0)
    ensures FinalInterval(AxisSettings(None, None), (0.0, 20.0)) == 5.0
  {
    TickIntervalOfSixteen();
    TickIntervalOfTwenty();
    SnapZeroSixteen();
  }

  /** The x axis runs over [0, 4] in steps of 1 with five ticks. */
  lemma SquaresPlanX(toU64: real -> nat)
    requires IsToU64(toU64)
    ensures PlanAxis(AxisSettings(None, None), FoldMin(SquaresX), FoldMax(SquaresX), toU64) ==
      Some(AxisPlan((0.0, 4.0), 1.0, 5))
  {
    SquaresExtent();
    SquaresLimitsX();
    ExactTickCount(AxisSettings(None, None), (0.0, 4.0), toU64, 4);
  }

  /** The y axis is snapped out from [0, 16] to [0, 20] and runs in steps of
      5 with five ticks. */
  lemma SquaresPlanY(toU64: real -> nat)
    requires IsToU64(toU64)
    ensures PlanAxis(AxisSettings(None, None), FoldMin(SquaresY), FoldMax(SquaresY), toU64) ==
      Some(AxisPlan((0.0, 20.0), 5.0, 5))
  {
    SquaresExtent();
    SquaresLimitsY();
    ExactTickCount(AxisSettings(None, None), (0.0, 20.0), toU64, 4);
  }
}
