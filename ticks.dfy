/** The choice of a "nice" tick interval for an axis (`compute_tick_interval`
    in src/lib.rs): five candidates scaled from the power of ten nearest to
    the range, and the one whose tick count comes closest to five wins. */
module Ticks {
  import opened Numeric

  /** `order_of_magnitude`: 10 raised to log10 |range| rounded to an integer. */
  function OrderOfMagnitude(range: real): (m: real)
    requires range != 0.0
    ensures m > 0.0
    ensures exists e: int :: m == Pow10(e)
    ensures 0.1 <= Sq(Abs(range) / m) <= 10.0
  {
    var e := RoundLog10(Abs(range));
    RoundLog10Bracket(Abs(range));
    MantissaQuotient(Abs(range), e);
    Pow10(e)
  }

  /** `possible_tick_intervals`, smallest first. */
  function Candidates(m: real): (cs: seq<real>)
    requires m > 0.0
    ensures |cs| == 5
    ensures forall j, k :: 0 <= j < k < 5 ==> cs[j] < cs[k]
    ensures forall c :: c in cs ==> c > 0.0
  {
    [m / 10.0, m / 5.0, m / 2.0, m, m * 2.0]
  }

  /** The number of ticks the candidate interval c gives on a range:
      `(range / c).round()`. */
  function TickCount(range: real, c: real): (n: int)
    requires c != 0.0
    ensures range / c - 0.5 <= n as real <= range / c + 0.5
    ensures range >= 0.0 && c > 0.0 ==> n >= 0
  {
    Round(range / c)
  }

  /** The key of `min_by_key`: `(num - 5).abs()`. */
  function DistanceToFive(count: int): (d: nat)
    ensures d == count - 5 || d == 5 - count
    ensures d == 0 <==> count == 5
  {
    if count < 5 then 5 - count else count - 5
  }

  /** `min_by_key` over the enumerated counts: the index of a count closest
      to five, the first such index when several are equally close. */
  function FirstClosestToFive(counts: seq<int>): (i: nat)
    requires |counts| > 0
    ensures i < |counts|
    ensures forall j :: 0 <= j < |counts| ==> DistanceToFive(counts[i]) <= DistanceToFive(counts[j])
    ensures forall j :: 0 <= j < i ==> DistanceToFive(counts[i]) < DistanceToFive(counts[j])
  {
    if |counts| == 1 then 0
    else
      var init := counts[..|counts| - 1];
      var i := FirstClosestToFive(init);
      assert forall j :: 0 <= j < |init| ==> init[j] == counts[j];
      if DistanceToFive(counts[|counts| - 1]) < DistanceToFive(counts[i]) then |counts| - 1 else i
  }

  /** `compute_tick_interval`: among the five candidates, the one whose tick
      count is closest to five; on a tie the smaller candidate, which comes
      first. Only |range| matters. */
  function ComputeTickInterval(range: real): (t: real)
    requires range != 0.0
    ensures t > 0.0
    ensures t in Candidates(OrderOfMagnitude(range))
    ensures forall c :: c in Candidates(OrderOfMagnitude(range)) ==>
      DistanceToFive(TickCount(Abs(range), t)) <= DistanceToFive(TickCount(Abs(range), c))
    ensures forall c :: c in Candidates(OrderOfMagnitude(range)) && c < t ==>
      DistanceToFive(TickCount(Abs(range), t)) < DistanceToFive(TickCount(Abs(range), c))
  {
    var a := Abs(range);
    var cs := Candidates(OrderOfMagnitude(range));
    var counts := [TickCount(a, cs[0]), TickCount(a, cs[1]), TickCount(a, cs[2]),
                   TickCount(a, cs[3]), TickCount(a, cs[4])];
    assert forall j :: 0 <= j < 5 ==> counts[j] == TickCount(a, cs[j]);
    var i := FirstClosestToFive(counts);
    cs[i]
  }

  lemma TickIntervalIgnoresSign(range: real)
    requires range != 0.0
    ensures ComputeTickInterval(-range) == ComputeTickInterval(range)
  {
  }

  /** A number of the form 1, 2 or 5 times a power of ten. */
  ghost predicate IsNice(t: real)
  {
    exists k: int :: t == Pow10(k) || t == 2.0 * Pow10(k) || t == 5.0 * Pow10(k)
  }

  /** The interval is always 1, 2 or 5 times a power of ten. */
  lemma TickIntervalIsNice(range: real)
    requires range != 0.0
    ensures IsNice(ComputeTickInterval(range))
  {
    var e := RoundLog10(Abs(range));
    var m := Pow10(e);
    var t := ComputeTickInterval(range);
    Pow10Step(e - 1);
    var p := Pow10(e - 1);
    assert m == 10.0 * p;
    var cs := Candidates(m);
    assert cs == [p, 2.0 * p, 5.0 * p, m, 2.0 * m];
    if t == m || t == 2.0 * m {
      assert t == Pow10(e) || t == 2.0 * Pow10(e);
    } else {
      assert t == Pow10(e - 1) || t == 2.0 * Pow10(e - 1) || t == 5.0 * Pow10(e - 1);
    }
  }

  /** A positive value whose square lies in [1/10, 10] lies in (0.3, 3.17). */
  lemma MantissaRange(x: real)
    requires x > 0.0 && 0.1 <= Sq(x) <= 10.0
    ensures 0.3 < x < 3.17
  {
  }

  /** The chosen interval always gives between three and seven ticks: the
      range lies within half a decade of the order of magnitude m, so one of
      m/10, m/5 and m/2 is at most two ticks away from five. */
  lemma TickIntervalNearFiveTicks(range: real)
    requires range != 0.0
    ensures 3 <= TickCount(Abs(range), ComputeTickInterval(range)) <= 7
  {
    var a := Abs(range);
    var e := RoundLog10(a);
    var m := Pow10(e);
    RoundLog10Bracket(a);
    MantissaRange(Mantissa(a, e));
    MantissaQuotient(a, e);
    var c := CloseCandidate(a, m);
    assert c in Candidates(m);
  }

  /** For a range within half a decade of m, a candidate at most two ticks
      away from five. */
  lemma CloseCandidate(a: real, m: real) returns (c: real)
    requires a > 0.0 && m > 0.0 && 0.3 < a / m < 3.17
    ensures c in Candidates(m) && DistanceToFive(TickCount(a, c)) <= 2
  {
    var x := a / m;
    assert a / (m / 10.0) == 10.0 * x;
    assert a / (m / 5.0) == 5.0 * x;
    assert a / (m / 2.0) == 2.0 * x;
    if x < 0.5 {
      c := m / 10.0;
    } else if x < 1.5 {
      c := m / 5.0;
    } else {
      c := m / 2.0;
    }
  }

  // The worked cases of a line plot of y = x^2 over x = 0..4.

  lemma TickIntervalOfFour()
    ensures ComputeTickInterval(4.0) == 1.0
  {
    assert HalfUpLog10(0.4) == 0;
    assert RoundLog10(4.0) == 1;
    assert Pow10(1) == 10.0;
    var cs := Candidates(10.0);
    assert cs == [1.0, 2.0, 5.0, 10.0, 20.0];
    assert TickCount(4.0, 1.0) == 4;
    assert TickCount(4.0, 2.0) == 2;
    assert TickCount(4.0, 5.0) == 1;
    assert TickCount(4.0, 10.0) == 0;
    assert TickCount(4.0, 20.0) == 0;
  }

  lemma TickIntervalOfSixteen()
    ensures ComputeTickInterval(16.0) == 5.0
  {
    assert HalfUpLog10(1.6) == 0;
    assert RoundLog10(16.0) == 1;
    assert Pow10(1) == 10.0;
    var cs := Candidates(10.0);
    assert cs == [1.0, 2.0, 5.0, 10.0, 20.0];
    assert TickCount(16.0, 1.0) == 16;
    assert TickCount(16.0, 2.0) == 8;
    assert TickCount(16.0, 5.0) == 3;
    assert TickCount(16.0, 10.0) == 2;
    assert TickCount(16.0, 20.0) == 1;
  }

  lemma TickIntervalOfTwenty()
    ensures ComputeTickInterval(20.0) == 5.0
  {
    assert HalfUpLog10(2.0) == 0;
    assert RoundLog10(20.0) == 1;
    assert Pow10(1) == 10.0;
    var cs := Candidates(10.0);
    assert cs == [1.0, 2.0, 5.0, 10.0, 20.0];
    assert TickCount(20.0, 1.0) == 20;
    assert TickCount(20.0, 2.0) == 10;
    assert TickCount(20.0, 5.0) == 4;
    assert TickCount(20.0, 10.0) == 2;
    assert TickCount(20.0, 20.0) == 1;
  }
}
