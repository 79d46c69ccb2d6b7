/** Tick label formatting (`Axis::tick_labels` in src/lib.rs). A label is
    modelled by its value and the `format!` style chosen for it; the text the
    formatter would produce is not modelled. */
module Labels {
  import opened Numeric

  /** The three `format!` forms the library uses. */
  datatype Style =
    | Plain                   // `format!("{}", v)`
    | FixedPoint(digits: nat) // `format!("{:.*}", digits, v)`
    | Exponent(digits: nat)   // `format!("{:.*e}", digits, v)`

  datatype Label = Label(value: real, style: Style)

  /** The value of tick i: `i as f64 * tick_interval + limits.0`. */
  function TickValue(limits: (real, real), interval: real, i: nat): real
  {
    i as real * interval + limits.0
  }

  /** The larger magnitude of the two limits, whose log10 is `tick_max`. */
  function LargestLimit(limits: (real, real)): real
  {
    Max(Abs(limits.0), Abs(limits.1))
  }

  /** The digits of the scientific form:
      `((tick_max - tick_precision).abs().ceil() - 1.).max(1.)`, where
      tick_max - tick_precision = log10 (largest / |interval|). */
  function ExponentDigits(largest: real, a: real): (d: nat)
    requires largest > 0.0 && a > 0.0
    ensures d >= 1
    ensures d == CeilAbsLog10(largest / a) - 1 || (d == 1 && CeilAbsLog10(largest / a) <= 2)
  {
    var n := CeilAbsLog10(largest / a);
    if n - 1 >= 1 then n - 1 else 1
  }

  /** The style chosen for a tick value v on an axis with the given interval
      and limits: the three-way rule, each regime stated as an equivalence,
      and what the digit counts mean. With an interval below one, the
      fixed-point form shows exactly down to the decimal place of the
      interval's leading digit; with larger intervals and limits below 10^4,
      two decimals; beyond that, at least one digit of mantissa. */
  function FormatTick(v: real, interval: real, limits: (real, real)): (l: Label)
    requires interval != 0.0
    ensures l.value == v
    ensures l.style == Plain <==> v == 0.0
    ensures l.style.FixedPoint? <==> v != 0.0 && (Abs(interval) < 1.0 || LargestLimit(limits) < 10000.0)
    ensures l.style.Exponent? <==> v != 0.0 && Abs(interval) >= 1.0 && LargestLimit(limits) >= 10000.0
    ensures v != 0.0 && Abs(interval) < 1.0 ==>
      l.style.digits >= 1 && Pow10(-(l.style.digits as int)) <= Abs(interval) < Pow10(1 - l.style.digits)
    ensures v != 0.0 && Abs(interval) >= 1.0 && LargestLimit(limits) < 10000.0 ==> l.style == FixedPoint(2)
    ensures l.style.Exponent? ==> l.style.digits >= 1
    ensures v != 0.0 && Abs(interval) >= 1.0 && LargestLimit(limits) >= 10000.0 ==>
      l.style == Exponent(ExponentDigits(LargestLimit(limits), Abs(interval)))
  {
    var a := Abs(interval);
    var largest := LargestLimit(limits);
    if v == 0.0 then Label(v, Plain)
    else if a < 1.0 then Label(v, FixedPoint(FracDigits(a)))
    else if largest < 10000.0 then Label(v, FixedPoint(2))
    else Label(v, Exponent(ExponentDigits(largest, a)))
  }

  /** The label list of an axis: one label per tick, label i for tick i. */
  function TickLabelsOf(limits: (real, real), interval: real, numTicks: nat): (ls: seq<Label>)
    requires interval != 0.0
    ensures |ls| == numTicks
    ensures forall i :: 0 <= i < numTicks ==> ls[i].value == TickValue(limits, interval, i)
  {
    seq(numTicks, i requires 0 <= i < numTicks => FormatTick(TickValue(limits, interval, i), interval, limits))
  }

  /** All non-zero labels of one axis share one style: the precision is a
      property of the axis, not of the tick. */
  lemma {:induction false} TickLabelsConsistent(limits: (real, real), interval: real, numTicks: nat, i: nat, j: nat)
    requires interval != 0.0 && i < numTicks && j < numTicks
    requires TickValue(limits, interval, i) != 0.0 && TickValue(limits, interval, j) != 0.0
    ensures TickLabelsOf(limits, interval, numTicks)[i].style == TickLabelsOf(limits, interval, numTicks)[j].style
  {
    var ls := TickLabelsOf(limits, interval, numTicks);
    assert ls[i] == FormatTick(TickValue(limits, interval, i), interval, limits);
    assert ls[j] == FormatTick(TickValue(limits, interval, j), interval, limits);
  }

  /** A zero tick is printed plainly whatever the regime. */
  lemma TickLabelsZeroPlain(limits: (real, real), interval: real, numTicks: nat, i: nat)
    requires interval != 0.0 && i < numTicks
    requires TickValue(limits, interval, i) == 0.0
    ensures TickLabelsOf(limits, interval, numTicks)[i].style == Plain
  {
    var ls := TickLabelsOf(limits, interval, numTicks);
    assert ls[i] == FormatTick(TickValue(limits, interval, i), interval, limits);
  }

  /** An interval of 0.001 on limits (0, 0.01): three decimals, 0 plain. */
  lemma MilliIntervalLabels(i: nat)
    requires i <= 10
    ensures TickLabelsOf((0.0, 0.01), 0.001, 11)[i].style ==
      if i == 0 then Plain else FixedPoint(3)
  {
    var ls := TickLabelsOf((0.0, 0.01), 0.001, 11);
    assert ls[i] == FormatTick(TickValue((0.0, 0.01), 0.001, i), 0.001, (0.0, 0.01));
    assert FracDigits(0.1) == 1;
    assert FracDigits(0.01) == 2;
    assert FracDigits(0.001) == 3;
  }

  /** An interval of 50000 on limits (0, 10^6): scientific notation with one
      digit after the point. */
  lemma LargeIntervalLabels(i: nat)
    requires 1 <= i <= 20
    ensures TickLabelsOf((0.0, 1000000.0), 50000.0, 21)[i].style == Exponent(1)
  {
    var ls := TickLabelsOf((0.0, 1000000.0), 50000.0, 21);
    assert ls[i] == FormatTick(TickValue((0.0, 1000000.0), 50000.0, i), 50000.0, (0.0, 1000000.0));
    assert CeilLog10(0.2) == 0;
    assert CeilLog10(2.0) == 1;
    assert CeilLog10(20.0) == 2;
    assert CeilAbsLog10(1000000.0 / 50000.0) == 2;
  }
}
