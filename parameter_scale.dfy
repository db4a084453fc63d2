/**
  The parameter scale: where the value marker and the green optimal band sit
  on a bar from `min` to `max`, in percent of its width, whether the value is
  optimal, and the six numeric marks under the bar.
 */
module ParameterScale {
  import opened H2oTypes
  import WaterAnalysis

  /** Position of `v` on the bar, unclamped: min is at 0, max at 100, and the offset scales with the width. */
  function Percent(v: real, min: real, max: real): (p: real)
    requires max != min
    ensures p * (max - min) == (v - min) * 100.0
    ensures v == min ==> p == 0.0
    ensures v == max ==> p == 100.0
  {
    var d := max - min;
    assert d / d == 1.0;
    (v - min) / d * 100.0
  }

  /** valuePercent: the marker position, kept inside the bar. */
  function ValuePercent(value: real, min: real, max: real): (p: real)
    requires max != min
    ensures 0.0 <= p <= 100.0
    ensures 0.0 <= Percent(value, min, max) <= 100.0 ==> p == Percent(value, min, max)
    ensures Percent(value, min, max) < 0.0 ==> p == 0.0
    ensures Percent(value, min, max) > 100.0 ==> p == 100.0
  {
    var raw := Percent(value, min, max);
    var capped := if raw < 100.0 then raw else 100.0;
    if capped > 0.0 then capped else 0.0
  }

  /** Percent is strictly increasing on a bar with max > min. */
  lemma PercentStrictlyIncreasing(a: real, b: real, min: real, max: real)
    requires min < max && a < b
    ensures Percent(a, min, max) < Percent(b, min, max)
  {
    var d := max - min;
    assert (b - min) / d - (a - min) / d == (b - a) / d;
  }

  /** Between min and max the marker sits at the exact, unclamped position. */
  lemma ValuePercentExact(value: real, min: real, max: real)
    requires min < max && min <= value <= max
    ensures ValuePercent(value, min, max) == (value - min) / (max - min) * 100.0
  {
    if value > min { PercentStrictlyIncreasing(min, value, min, max); }
    if value < max { PercentStrictlyIncreasing(value, max, min, max); }
    var d := max - min;
    assert d / d == 1.0;
    assert Percent(max, min, max) == 100.0;
    assert Percent(min, min, max) == 0.0;
  }

  /** The ideal arrow points at the middle of the green band. */
  function OptimalMidPercent(optimalMin: real, optimalMax: real, min: real, max: real): (mid: real)
    requires max != min
    ensures mid - Percent(optimalMin, min, max) == Percent(optimalMax, min, max) - mid
  {
    (Percent(optimalMin, min, max) + Percent(optimalMax, min, max)) / 2.0
  }

  /** isOptimal, inclusive at both ends. */
  predicate IsOptimal(value: real, optimalMin: real, optimalMax: real) {
    value >= optimalMin && value <= optimalMax
  }

  /** The "Ideal" arrow is drawn only for a value outside the optimal range. */
  predicate ShowIdealArrow(value: real, optimalMin: real, optimalMax: real) {
    !IsOptimal(value, optimalMin, optimalMax)
  }

  /** The scale's test is the classifier's test for each parameter range. */
  lemma IsOptimalAgrees(value: real, r: ParameterRange)
    ensures IsOptimal(value, r.optimalMin, r.optimalMax) == WaterAnalysis.InOptimal(value, r)
    ensures ShowIdealArrow(value, r.optimalMin, r.optimalMax) == !WaterAnalysis.InOptimal(value, r)
  {
  }

  /**
    On a bar whose band lies inside it, a value on the bar is optimal exactly
    when its marker lies on the green band.
   */
  lemma MarkerOnBandIffOptimal(value: real, min: real, max: real, optimalMin: real, optimalMax: real)
    requires min < max && min <= optimalMin <= optimalMax <= max
    requires min <= value <= max
    ensures IsOptimal(value, optimalMin, optimalMax) <==>
      Percent(optimalMin, min, max) <= ValuePercent(value, min, max) <= Percent(optimalMax, min, max)
  {
    ValuePercentExact(value, min, max);
    if value < optimalMin { PercentStrictlyIncreasing(value, optimalMin, min, max); }
    if optimalMin < value { PercentStrictlyIncreasing(optimalMin, value, min, max); }
    if value < optimalMax { PercentStrictlyIncreasing(value, optimalMax, min, max); }
    if optimalMax < value { PercentStrictlyIncreasing(optimalMax, value, min, max); }
  }

  /** Math.round: the nearest integer, halves rounded up. */
  function Round(x: real): (n: int)
    ensures x - 0.5 < n as real <= x + 0.5
  {
    (x + 0.5).Floor
  }

  lemma RoundMonotone(x: real, y: real)
    requires x <= y
    ensures Round(x) <= Round(y)
  {
  }

  /** The mark at position i of the scale, i = 0 .. 5. */
  function Mark(min: real, max: real, i: nat): int {
    Round(min + (max - min) / 5.0 * i as real)
  }

  /**
    scaleMarks: six marks, one per fifth of the bar from min to max; the first
    is min rounded, the last max rounded, and they never decrease when max >= min.
   */
  method ScaleMarks(min: real, max: real) returns (marks: seq<int>)
    ensures |marks| == 6
    ensures forall i :: 0 <= i < 6 ==> marks[i] == Mark(min, max, i)
    ensures marks[0] == Round(min) && marks[5] == Round(max)
    ensures min <= max ==> forall i, j :: 0 <= i <= j < 6 ==> marks[i] <= marks[j]
  {
    marks := [];
    var step := (max - min) / 5.0;
    for i := 0 to 6
      invariant |marks| == i
      invariant forall k :: 0 <= k < i ==> marks[k] == Mark(min, max, k)
      invariant min <= max ==> forall k, l :: 0 <= k <= l < i ==> marks[k] <= marks[l]
    {
      if min <= max && i > 0 {
        MarkIncreasing(min, max, i - 1);
      }
      marks := marks + [Round(min + step * i as real)];
    }
    assert (max - min) / 5.0 * 5.0 == max - min;
  }

  lemma MarkIncreasing(min: real, max: real, i: nat)
    requires min <= max
    ensures Mark(min, max, i) <= Mark(min, max, i + 1)
  {
    RoundMonotone(min + (max - min) / 5.0 * i as real, min + (max - min) / 5.0 * (i + 1) as real);
  }
}
