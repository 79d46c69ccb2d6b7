/** Exact real-number counterparts of the floating-point primitives that the
    plotting library uses: `abs`, `round`, `floor`/`ceil`, `powi(10, _)`,
    `log10` (only through the integer quantities the library derives from
    it), `max`/`min` on `f64` with their NaN rules, and the largest finite
    `f64`. */
module Numeric {

  function Abs(x: real): (r: real)
    ensures r >= 0.0 && (r == x || r == -x)
  {
    if x < 0.0 then -x else x
  }

  function Max(a: real, b: real): real { if a < b then b else a }

  function Min(a: real, b: real): real { if b < a then b else a }

  /** `f64::round`: the nearest integer, half-way cases away from zero. */
  function Round(x: real): (n: int)
    ensures x - 0.5 <= n as real <= x + 0.5
    ensures x >= 0.0 ==> x - 0.5 < n as real
    ensures x <= 0.0 ==> n as real < x + 0.5
  {
    if x >= 0.0 then (x + 0.5).Floor else -((-x + 0.5).Floor)
  }

  /** `f64::ceil`. */
  function Ceil(x: real): (n: int)
    ensures x <= n as real < x + 1.0
  {
    -((-x).Floor)
  }

  // ---------------------------------------------------------------------
  // Powers of ten (`10f64.powi(e)` for an integer exponent)

  function Pow10Nat(n: nat): (p: real)
    ensures p >= 1.0
  {
    if n == 0 then 1.0 else 10.0 * Pow10Nat(n - 1)
  }

  function Pow10(e: int): (p: real)
    ensures p > 0.0
  {
    if e >= 0 then Pow10Nat(e) else 1.0 / Pow10Nat(-e)
  }

  lemma Pow10Step(e: int)
    ensures Pow10(e + 1) == 10.0 * Pow10(e)
  {
  }

  lemma Pow10Reciprocal(e: int)
    ensures Pow10(-e) * Pow10(e) == 1.0
  {
  }

  // ---------------------------------------------------------------------
  // `range.log10().round()`

  function Sq(a: real): real { a * a }

  /** floor(log10 x + 1/2) for x with log10 x >= -1/2, i.e. log10 rounded with
      half-way cases upwards. */
  function HalfUpLog10(x: real): (e: nat)
    requires x > 0.0 && Sq(x) >= 0.1
    decreases x.Floor
  {
    if Sq(x) < 10.0 then 0
    else
      DecadeDown(x);
      1 + HalfUpLog10(x / 10.0)
  }

  lemma DecadeDown(x: real)
    requires x > 0.0 && Sq(x) >= 10.0
    ensures (x / 10.0).Floor < x.Floor
    ensures Sq(x / 10.0) == Sq(x) / 100.0
  {
    assert x >= 3.0;
  }

  /** x scaled down by the decade 10^e. */
  function Mantissa(x: real, e: int): real { x * Pow10(-e) }

  lemma MantissaStep(x: real, e: int)
    ensures Mantissa(x, e + 1) == Mantissa(x / 10.0, e)
  {
    Pow10Step(-e - 1);
    var q := Pow10(-e - 1);
    assert x * q == (x / 10.0) * (10.0 * q);
  }

  lemma MantissaQuotient(x: real, e: int)
    ensures Mantissa(x, e) == x / Pow10(e)
  {
    var p, q := Pow10(e), Pow10(-e);
    Pow10Reciprocal(e);
    var r := q * p;
    assert r == 1.0;
    assert x * r == x;
    assert (x * q) * p == x * r;
  }

  lemma {:induction false} HalfUpLog10Bracket(x: real)
    requires x > 0.0 && Sq(x) >= 0.1
    ensures 0.1 <= Sq(Mantissa(x, HalfUpLog10(x))) < 10.0
    decreases x.Floor
  {
    if Sq(x) >= 10.0 {
      DecadeDown(x);
      HalfUpLog10Bracket(x / 10.0);
      MantissaStep(x, HalfUpLog10(x / 10.0));
    } else {
      assert Mantissa(x, 0) == x;
    }
  }

  /** `x.log10().round()` for x > 0, exactly: the integer nearest to log10 x,
      half-way cases away from zero. Rounding is odd-symmetric, so below 1 it
      is the negated rounding of log10 (1/x). */
  function RoundLog10(x: real): (e: int)
    requires x > 0.0
    ensures x >= 1.0 ==> e >= 0
    ensures x < 1.0 ==> e <= 0
  {
    if x >= 1.0 then HalfUpLog10(x)
    else
      assert 1.0 / x > 1.0 && Sq(1.0 / x) > 1.0 / x;
      -(HalfUpLog10(1.0 / x) as int)
  }

  /** The characterisation of `RoundLog10`: x lies within half a decade of
      10^e, that is 10^(e - 1/2) <= x <= 10^(e + 1/2), stated without roots
      as 1/10 <= (x / 10^e)^2 <= 10. */
  lemma RoundLog10Bracket(x: real)
    requires x > 0.0
    ensures 0.1 <= Sq(Mantissa(x, RoundLog10(x))) <= 10.0
  {
    if x >= 1.0 {
      assert Sq(x) >= x;
      HalfUpLog10Bracket(x);
    } else {
      var u := 1.0 / x;
      assert u > 1.0 && Sq(u) > u;
      HalfUpLog10Bracket(u);
      ReciprocalScale(x, u, HalfUpLog10(u));
      ReciprocalSquare(Mantissa(x, -(HalfUpLog10(u) as int)), Mantissa(u, HalfUpLog10(u)));
    }
  }

  /** Rounding log10 is odd: log10 (1/x) rounds to minus the rounding of
      log10 x. */
  lemma RoundLog10Odd(x: real)
    requires x > 0.0
    ensures RoundLog10(1.0 / x) == -RoundLog10(x)
  {
    var u := 1.0 / x;
    assert x * u == 1.0;
    assert 1.0 / u == x;
    if x == 1.0 {
      assert u == 1.0;
    }
  }

  lemma ReciprocalScale(x: real, u: real, e: int)
    requires x * u == 1.0
    ensures Mantissa(x, -e) * Mantissa(u, e) == 1.0
  {
    var p, q := Pow10(e), Pow10(-e);
    Pow10Reciprocal(e);
    assert (x * p) * (u * q) == (x * u) * (p * q);
  }

  lemma ReciprocalSquare(y: real, z: real)
    requires y * z == 1.0 && 0.1 <= Sq(z) < 10.0
    ensures 0.1 < Sq(y) <= 10.0
  {
    var yy, zz := Sq(y), Sq(z);
    assert yy * zz == 1.0 by {
      assert yy * zz == (y * z) * (y * z);
    }
    assert yy > 0.0;
    assert yy <= yy * (10.0 * zz) == 10.0;
    assert 1.0 == yy * zz < yy * 10.0;
  }

  // ---------------------------------------------------------------------
  // Digit counts that tick labels derive from `log10`

  /** ceil(|log10 a|) for 0 < a < 1: the number of decimal places at which
      the leading digit of a stands. */
  function FracDigits(a: real): (n: nat)
    requires 0.0 < a < 1.0
    ensures n >= 1
    ensures Pow10(-(n as int)) <= a < Pow10(1 - n)
    decreases (1.0 / a).Floor
  {
    if a >= 0.1 then 1
    else
      assert (1.0 / (10.0 * a)).Floor < (1.0 / a).Floor by {
        assert 1.0 / (10.0 * a) == (1.0 / a) / 10.0;
        assert 1.0 / a > 10.0;
      }
      var m := FracDigits(10.0 * a);
      Pow10Step(-(m as int) - 1);
      Pow10Step(-(m as int));
      1 + m
  }

  /** ceil(log10 q) for q > 1, and 0 for q <= 1. */
  function CeilLog10(q: real): (n: nat)
    requires q > 0.0
    ensures q <= Pow10(n)
    ensures n > 0 ==> Pow10(n - 1) < q
    decreases q.Floor
  {
    if q <= 1.0 then 0
    else
      assert (q / 10.0).Floor < q.Floor by {
        if q >= 2.0 { assert q / 10.0 < q - 1.0; }
      }
      var m := CeilLog10(q / 10.0);
      Pow10Step(m);
      Pow10Step(m - 1);
      1 + m
  }

  /** ceil(|log10 q|) for q > 0. */
  function CeilAbsLog10(q: real): (n: nat)
    requires q > 0.0
    ensures q >= 1.0 ==> q <= Pow10(n) && (n > 0 ==> Pow10(n - 1) < q)
    ensures q < 1.0 ==> n > 0 && Pow10(-(n as int)) <= q < Pow10(1 - n)
  {
    if q >= 1.0 then CeilLog10(q)
    else
      var n := CeilLog10(1.0 / q);
      assert n > 0 by { assert 1.0 / q > 1.0; }
      ReciprocalOrder(q, Pow10(n), Pow10(n - 1));
      Pow10Inverse(n);
      Pow10Inverse(n - 1);
      n
  }

  lemma Pow10Inverse(e: int)
    ensures Pow10(-e) == 1.0 / Pow10(e)
  {
    Pow10Reciprocal(e);
  }

  /** Taking reciprocals reverses the bracket lo < 1/q <= hi. */
  lemma ReciprocalOrder(q: real, hi: real, lo: real)
    requires q > 0.0 && lo > 0.0 && lo < 1.0 / q <= hi
    ensures 1.0 / hi <= q < 1.0 / lo
  {
    var r := 1.0 / q;
    assert r * q == 1.0;
    assert lo * q < r * q;
    assert r * q <= hi * q;
  }

  // ---------------------------------------------------------------------
  // Extremes of a non-empty sequence (`FloatMax::float_max`)

  function SeqMax(s: seq<real>): (m: real)
    requires |s| > 0
    ensures forall k :: 0 <= k < |s| ==> s[k] <= m
    ensures exists k :: 0 <= k < |s| && s[k] == m
  {
    if |s| == 1 then s[0]
    else
      var m := SeqMax(s[..|s| - 1]);
      assert forall k :: 0 <= k < |s| - 1 ==> s[k] == s[..|s| - 1][k];
      Max(m, s[|s| - 1])
  }

  function SeqMin(s: seq<real>): (m: real)
    requires |s| > 0
    ensures forall k :: 0 <= k < |s| ==> m <= s[k]
    ensures exists k :: 0 <= k < |s| && s[k] == m
  {
    if |s| == 1 then s[0]
    else
      var m := SeqMin(s[..|s| - 1]);
      assert forall k :: 0 <= k < |s| - 1 ==> s[k] == s[..|s| - 1][k];
      Min(m, s[|s| - 1])
  }

  lemma SeqMaxAppend(s: seq<real>, x: real)
    requires |s| > 0
    ensures SeqMax(s + [x]) == Max(SeqMax(s), x)
  {
    assert (s + [x])[..|s|] == s;
  }

  lemma SeqMinAppend(s: seq<real>, x: real)
    requires |s| > 0
    ensures SeqMin(s + [x]) == Min(SeqMin(s), x)
  {
    assert (s + [x])[..|s|] == s;
  }

  // ---------------------------------------------------------------------
  // IEEE-754 doubles, as far as the library distinguishes them

  datatype Float = Finite(v: real) | PosInf | NegInf | NaN

  /** The finite values of s, in order. */
  function FiniteValues(s: seq<Float>): (vs: seq<real>)
    ensures forall x :: x in vs <==> Finite(x) in s
  {
    if |s| == 0 then []
    else
      assert s == s[..|s| - 1] + [s[|s| - 1]];
      FiniteValues(s[..|s| - 1]) + (if s[|s| - 1].Finite? then [s[|s| - 1].v] else [])
  }

  /** `f64::MAX`, which is (2 - 2^-52) * 2^1023. */
  const MaxF64: real := 179769313486231570814527423731704356798070567525844996598917476803157260780028538760589558632766878171540458953514382464234321326889464182768467546703537516986049910576551282076245490090389328944075868508455133942304583236903222948165808559332123348274797826204144723168738177180919299881250404026184124858368.0

  /** A value a double can hold: finite values lie within plus or minus `f64::MAX`. */
  predicate InF64Range(f: Float)
  {
    f.Finite? ==> -MaxF64 <= f.v <= MaxF64
  }

  /** `f64::max`: when one argument is NaN the other one is returned. */
  function FMax(a: Float, b: Float): (r: Float)
    ensures a.NaN? ==> r == b
    ensures b.NaN? ==> r == a
    ensures r == a || r == b
  {
    if a.NaN? then b
    else if b.NaN? then a
    else if a.PosInf? || b.PosInf? then PosInf
    else if a.NegInf? then b
    else if b.NegInf? then a
    else Finite(Max(a.v, b.v))
  }

  /** `f64::min`: when one argument is NaN the other one is returned. */
  function FMin(a: Float, b: Float): (r: Float)
    ensures a.NaN? ==> r == b
    ensures b.NaN? ==> r == a
    ensures r == a || r == b
  {
    if a.NaN? then b
    else if b.NaN? then a
    else if a.NegInf? || b.NegInf? then NegInf
    else if a.PosInf? then b
    else if b.PosInf? then a
    else Finite(Min(a.v, b.v))
  }
}
