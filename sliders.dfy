/** The range controls of the calculator: their bounds and step, the values a
    browser range input can hold, and the fill percentage drawn behind the
    thumb (`SliderControl` in App.tsx). */
module Sliders {

  /** Bounds and step of one range input. */
  datatype Slider = Slider(min: int, max: int, step: int)

  /** The step a slider uses when its caller gives none. */
  const DefaultStep: int := 1

  predicate WellFormed(s: Slider) {
    s.min < s.max && s.step > 0
  }

  /** The values a range input with these attributes can report: the
      minimum plus a whole number of steps, never beyond the maximum. */
  predicate Admits(s: Slider, v: int)
    requires s.step > 0
  {
    s.min <= v <= s.max && (v - s.min) % s.step == 0
  }

  /** The fill percentage as JavaScript evaluates it over exact numbers: an
      empty range divides by zero, which yields a non-finite number. */
  datatype Fill = Finite(percent: real) | NotFinite

  function FillPercentage(value: real, min: real, max: real): (f: Fill)
    ensures f.NotFinite? <==> min == max
    ensures min != max && value == min ==> f == Finite(0.0)
    ensures min != max && value == max ==> f == Finite(100.0)
  {
    if max - min == 0.0 then NotFinite
    else
      assert value == max ==> (value - min) / (max - min) == 1.0;
      Finite(((value - min) / (max - min)) * 100.0)
  }

  /** The slider value that a given fill percentage stands for. */
  function ValueAt(percent: real, min: real, max: real): real {
    min + percent / 100.0 * (max - min)
  }

  /** On a non-empty range, a value between the bounds fills between 0% and 100%. */
  lemma FillWithinBounds(value: real, min: real, max: real)
    requires min < max && min <= value <= max
    ensures FillPercentage(value, min, max).Finite?
    ensures 0.0 <= FillPercentage(value, min, max).percent <= 100.0
  {
    var q := (value - min) / (max - min);
    assert q * (max - min) == value - min;
    DivisionBetweenZeroAndOne(value - min, max - min);
  }

  lemma DivisionBetweenZeroAndOne(a: real, b: real)
    requires 0.0 <= a <= b && 0.0 < b
    ensures 0.0 <= a / b <= 1.0
  {
    var q := a / b;
    assert q * b == a;
  }

  /** Between the same bounds, a larger value never fills less. */
  lemma FillMonotone(v1: real, v2: real, min: real, max: real)
    requires min < max && v1 <= v2
    ensures FillPercentage(v1, min, max).percent <= FillPercentage(v2, min, max).percent
  {
    var d := max - min;
    assert (v2 - min) / d - (v1 - min) / d == (v2 - v1) / d;
    QuotientNonNegative(v2 - v1, d);
  }

  lemma QuotientNonNegative(a: real, b: real)
    requires 0.0 <= a && 0.0 < b
    ensures 0.0 <= a / b
  {
    assert (a / b) * b == a;
  }

  /** The fill percentage determines the value: reading the value back from
      the percentage gives the value the slider holds. */
  lemma FillRoundTrip(value: real, min: real, max: real)
    requires min != max
    ensures ValueAt(FillPercentage(value, min, max).percent, min, max) == value
  {
    var d := max - min;
    var q := (value - min) / d;
    assert q * d == value - min;
    assert q * 100.0 / 100.0 == q;
  }

  /** Every value a well-formed slider admits fills between 0% and 100%. */
  lemma AdmittedFillWithinBounds(s: Slider, v: int)
    requires WellFormed(s) && Admits(s, v)
    ensures FillPercentage(v as real, s.min as real, s.max as real).Finite?
    ensures 0.0 <= FillPercentage(v as real, s.min as real, s.max as real).percent <= 100.0
  {
    FillWithinBounds(v as real, s.min as real, s.max as real);
  }
}
