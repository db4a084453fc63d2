/**
  The H2O water-quality classifier: fixed optimal ranges per parameter, a
  quality tier counted from the parameters inside their optimal range, a
  recommendation list built from directional checks, and the independent
  "needs correction" test.
 */
module WaterAnalysis {
  import opened Wrappers
  import opened H2oTypes

  // PARAMETER_RANGES
  const PhRange: ParameterRange := ParameterRange(4.0, 10.0, 6.0, 7.0, "", "pH")
  const AlkalinityRange: ParameterRange := ParameterRange(0.0, 500.0, 50.0, 150.0, "ppm", "Alcalinidad")
  const HardnessRange: ParameterRange := ParameterRange(0.0, 500.0, 0.0, 150.0, "ppm", "Dureza")

  /** The optimal band lies inside the display scale. */
  predicate WellFormed(r: ParameterRange) {
    r.min <= r.optimalMin <= r.optimalMax <= r.max
  }

  lemma RangesWellFormed()
    ensures WellFormed(PhRange) && PhRange.optimalMin == 6.0 && PhRange.optimalMax == 7.0
    ensures WellFormed(AlkalinityRange) && AlkalinityRange.optimalMin == 50.0 && AlkalinityRange.optimalMax == 150.0
    ensures WellFormed(HardnessRange) && HardnessRange.optimalMin == 0.0 && HardnessRange.optimalMax == 150.0
  {
  }

  /** Inside the optimal band, both ends included. */
  predicate InOptimal(v: real, r: ParameterRange) {
    r.optimalMin <= v <= r.optimalMax
  }

  /** `flags.filter(Boolean).length`. */
  function CountTrue(flags: seq<bool>): (n: nat)
    ensures n <= |flags|
    ensures n == |flags| <==> forall i :: 0 <= i < |flags| ==> flags[i]
    ensures n == 0 <==> forall i :: 0 <= i < |flags| ==> !flags[i]
  {
    if flags == [] then 0
    else (if flags[0] then 1 else 0) + CountTrue(flags[1..])
  }

  /** Turning flags on never lowers the count. */
  lemma {:induction false} CountTrueMonotone(a: seq<bool>, b: seq<bool>)
    requires |a| == |b|
    requires forall i :: 0 <= i < |a| ==> (a[i] ==> b[i])
    ensures CountTrue(a) <= CountTrue(b)
  {
    if a != [] {
      CountTrueMonotone(a[1..], b[1..]);
    }
  }

  /** The per-parameter optimal flags, in the order pH, alkalinity, hardness. */
  function OptimalFlags(ph: real, alkalinity: real, hardness: real): seq<bool> {
    [InOptimal(ph, PhRange), InOptimal(alkalinity, AlkalinityRange), InOptimal(hardness, HardnessRange)]
  }

  /** How many of the three parameters are optimal. */
  function OptimalCount(ph: real, alkalinity: real, hardness: real): nat {
    CountTrue(OptimalFlags(ph, alkalinity, hardness))
  }

  /** determineQuality: the tier whose rank is the number of optimal parameters. */
  function DetermineQuality(ph: real, alkalinity: real, hardness: real): (q: Quality)
    ensures Rank(q) == OptimalCount(ph, alkalinity, hardness)
    ensures q == Excellent <==>
      InOptimal(ph, PhRange) && InOptimal(alkalinity, AlkalinityRange) && InOptimal(hardness, HardnessRange)
    ensures q == Poor <==>
      !InOptimal(ph, PhRange) && !InOptimal(alkalinity, AlkalinityRange) && !InOptimal(hardness, HardnessRange)
  {
    var flags := OptimalFlags(ph, alkalinity, hardness);
    assert flags[0] == InOptimal(ph, PhRange) && flags[1] == InOptimal(alkalinity, AlkalinityRange);
    assert flags[2] == InOptimal(hardness, HardnessRange);
    var optimalCount := CountTrue(flags);
    if optimalCount == 3 then Excellent
    else if optimalCount >= 2 then Good
    else if optimalCount >= 1 then Fair
    else Poor
  }

  /**
    Moving parameters into their optimal range (and leaving the others as they
    are) never lowers the tier.
   */
  lemma MovingIntoOptimalNeverLowersQuality(
    ph: real, alkalinity: real, hardness: real,
    ph': real, alkalinity': real, hardness': real)
    requires ph' == ph || InOptimal(ph', PhRange)
    requires alkalinity' == alkalinity || InOptimal(alkalinity', AlkalinityRange)
    requires hardness' == hardness || InOptimal(hardness', HardnessRange)
    ensures Rank(DetermineQuality(ph', alkalinity', hardness')) >= Rank(DetermineQuality(ph, alkalinity, hardness))
  {
    CountTrueMonotone(OptimalFlags(ph, alkalinity, hardness), OptimalFlags(ph', alkalinity', hardness'));
  }

  // The recommendation texts
  const PhLow := "pH bajo: Añadir corrector de pH para subir el nivel"
  const PhHigh := "pH alto: Usar ácido para bajar el pH"
  const AlkalinityLow := "Alcalinidad baja: El agua puede ser inestable, considerar buffer"
  const AlkalinityHigh := "Alcalinidad alta: Puede afectar la eficacia de productos"
  const HardnessHigh := "Dureza alta: Considerar uso de secuestrantes o agua blanda"
  const OptimalCondition := "Agua en condiciones óptimas para aplicación"

  /**
    Which parameter a recommendation text is about: 0 pH, 1 alkalinity,
    2 hardness, 3 the fallback and any other text.
   */
  function Topic(msg: string): nat {
    if msg == PhLow || msg == PhHigh then 0
    else if msg == AlkalinityLow || msg == AlkalinityHigh then 1
    else if msg == HardnessHigh then 2
    else 3
  }

  /** The message of a directional check, if it fired. */
  function Directional(v: real, r: ParameterRange, low: string, high: string): seq<string> {
    if v < r.optimalMin then [low] else if v > r.optimalMax then [high] else []
  }

  /**
    The recommendation list: the pH, alkalinity and hardness checks in that
    order (hardness has only an upper check), or the fallback alone when none
    fired.
   */
  function Recommendations(ph: real, alkalinity: real, hardness: real): (recs: seq<string>)
    ensures 1 <= |recs| <= 3
  {
    var fired := Fired(ph, alkalinity, hardness);
    if fired == [] then [OptimalCondition] else fired
  }

  /** The messages of the checks that fired, in check order. */
  function Fired(ph: real, alkalinity: real, hardness: real): seq<string> {
    Directional(ph, PhRange, PhLow, PhHigh)
      + Directional(alkalinity, AlkalinityRange, AlkalinityLow, AlkalinityHigh)
      + (if hardness > HardnessRange.optimalMax then [HardnessHigh] else [])
  }

  /** At most one message per parameter, in the order pH, alkalinity, hardness, then the fallback. */
  lemma RecommendationsOrdered(ph: real, alkalinity: real, hardness: real)
    ensures var recs := Recommendations(ph, alkalinity, hardness);
      forall i, j :: 0 <= i < j < |recs| ==> Topic(recs[i]) < Topic(recs[j])
  {
    var phPart := Directional(ph, PhRange, PhLow, PhHigh);
    var alkPart := Directional(alkalinity, AlkalinityRange, AlkalinityLow, AlkalinityHigh);
    var hardPart := if hardness > HardnessRange.optimalMax then [HardnessHigh] else [];
    assert forall m :: m in phPart ==> Topic(m) == 0;
    assert forall m :: m in alkPart ==> Topic(m) == 1;
    assert forall m :: m in hardPart ==> Topic(m) == 2;
  }

  /**
    Each message is in the list exactly when its threshold is crossed; in
    particular pH-low and pH-high never appear together, and no message ever
    says hardness is low.
   */
  lemma RecommendationsMessages(ph: real, alkalinity: real, hardness: real)
    ensures var recs := Recommendations(ph, alkalinity, hardness);
      && (PhLow in recs <==> ph < 6.0)
      && (PhHigh in recs <==> ph > 7.0)
      && (AlkalinityLow in recs <==> alkalinity < 50.0)
      && (AlkalinityHigh in recs <==> alkalinity > 150.0)
      && (HardnessHigh in recs <==> hardness > 150.0)
  {
    var fired := Fired(ph, alkalinity, hardness);
    var phPart := Directional(ph, PhRange, PhLow, PhHigh);
    var alkPart := Directional(alkalinity, AlkalinityRange, AlkalinityLow, AlkalinityHigh);
    var hardPart := if hardness > HardnessRange.optimalMax then [HardnessHigh] else [];
    assert forall m :: m in fired <==> m in phPart || m in alkPart || m in hardPart;
  }

  /** The fallback only ever appears alone, and every message comes from the fixed catalogue. */
  lemma RecommendationsCatalogue(ph: real, alkalinity: real, hardness: real)
    ensures var recs := Recommendations(ph, alkalinity, hardness);
      && (OptimalCondition in recs ==> recs == [OptimalCondition])
      && forall m :: m in recs ==> m in {PhLow, PhHigh, AlkalinityLow, AlkalinityHigh, HardnessHigh, OptimalCondition}
  {
    var fired := Fired(ph, alkalinity, hardness);
    var phPart := Directional(ph, PhRange, PhLow, PhHigh);
    var alkPart := Directional(alkalinity, AlkalinityRange, AlkalinityLow, AlkalinityHigh);
    var hardPart := if hardness > HardnessRange.optimalMax then [HardnessHigh] else [];
    assert forall m :: m in fired <==> m in phPart || m in alkPart || m in hardPart;
  }

  /** getRecommendations: pushes one message per fired check, then the fallback if none fired. */
  method GetRecommendations(ph: real, alkalinity: real, hardness: real) returns (recommendations: seq<string>)
    ensures recommendations == Recommendations(ph, alkalinity, hardness)
  {
    recommendations := [];
    if ph < PhRange.optimalMin {
      recommendations := recommendations + [PhLow];
    } else if ph > PhRange.optimalMax {
      recommendations := recommendations + [PhHigh];
    }
    ghost var afterPh := recommendations;
    assert afterPh == Directional(ph, PhRange, PhLow, PhHigh);
    if alkalinity < AlkalinityRange.optimalMin {
      recommendations := recommendations + [AlkalinityLow];
    } else if alkalinity > AlkalinityRange.optimalMax {
      recommendations := recommendations + [AlkalinityHigh];
    }
    assert recommendations == afterPh + Directional(alkalinity, AlkalinityRange, AlkalinityLow, AlkalinityHigh);
    if hardness > HardnessRange.optimalMax {
      recommendations := recommendations + [HardnessHigh];
    }
    ghost var fired := recommendations;
    if |recommendations| == 0 {
      recommendations := recommendations + [OptimalCondition];
    }
    assert recommendations == if fired == [] then [OptimalCondition] else fired;
  }

  /** needsCorrection: its own hard-coded thresholds, not derived from the tier. */
  predicate NeedsCorrection(ph: real, alkalinity: real, hardness: real): (b: bool)
    ensures !b <==> InOptimal(ph, PhRange) && InOptimal(alkalinity, AlkalinityRange) && hardness <= HardnessRange.optimalMax
  {
    ph < 6.0 || ph > 7.0 || alkalinity < 50.0 || alkalinity > 150.0 || hardness > 150.0
  }

  /** The list is exactly the fallback message when, and only when, no correction is needed. */
  lemma FallbackIffNoCorrection(ph: real, alkalinity: real, hardness: real)
    ensures Recommendations(ph, alkalinity, hardness) == [OptimalCondition]
        <==> !NeedsCorrection(ph, alkalinity, hardness)
  {
    var recs := Recommendations(ph, alkalinity, hardness);
    RecommendationsMessages(ph, alkalinity, hardness);
    if recs == [OptimalCondition] {
      assert PhLow !in recs && PhHigh !in recs && AlkalinityLow !in recs;
      assert AlkalinityHigh !in recs && HardnessHigh !in recs;
    } else {
      assert recs[0] in recs;
    }
  }

  /** For a non-negative hardness, "no correction" is the same as the excellent tier. */
  lemma NoCorrectionIffExcellent(ph: real, alkalinity: real, hardness: real)
    requires hardness >= 0.0
    ensures !NeedsCorrection(ph, alkalinity, hardness) <==> DetermineQuality(ph, alkalinity, hardness) == Excellent
  {
  }

  /** A negative hardness needs no correction, yet its tier is not excellent. */
  lemma NegativeHardnessDisagrees(ph: real, alkalinity: real, hardness: real)
    requires hardness < 0.0
    requires InOptimal(ph, PhRange) && InOptimal(alkalinity, AlkalinityRange)
    ensures !NeedsCorrection(ph, alkalinity, hardness)
    ensures DetermineQuality(ph, alkalinity, hardness) == Good
  {
    var flags := OptimalFlags(ph, alkalinity, hardness);
    assert flags[1..][1..] == [false];
    assert CountTrue(flags) == 2;
  }

  /** getQualityColor: one colour per tier, grey for any other string. */
  function GetQualityColor(quality: string): (color: string)
    ensures color == "#6b7280" <==> ParseQuality(quality).None?
    ensures quality == "excellent" ==> color == "#22c55e"
    ensures quality == "good" ==> color == "#84cc16"
    ensures quality == "fair" ==> color == "#f59e0b"
    ensures quality == "poor" ==> color == "#ef4444"
  {
    match ParseQuality(quality)
    case Some(Excellent) => "#22c55e"
    case Some(Good) => "#84cc16"
    case Some(Fair) => "#f59e0b"
    case Some(Poor) => "#ef4444"
    case None => "#6b7280"
  }

  /** Distinct tiers get distinct colours. */
  lemma QualityColorsDistinct(q1: Quality, q2: Quality)
    requires q1 != q2
    ensures GetQualityColor(QualityName(q1)) != GetQualityColor(QualityName(q2))
    ensures GetQualityColor(QualityName(q1)) != "#6b7280"
  {
  }

  /**
    analyzeWaterStrip, with the three random readings taken as inputs: the
    sample with its tier and recommendations.
   */
  method AnalyzeWaterStrip(ph: real, alkalinity: real, hardness: real) returns (result: WaterQualityData)
    ensures result.ph == ph && result.alkalinity == alkalinity && result.hardness == hardness
    ensures result.quality == DetermineQuality(ph, alkalinity, hardness)
    ensures result.recommendations == Recommendations(ph, alkalinity, hardness)
  {
    var recommendations := GetRecommendations(ph, alkalinity, hardness);
    result := WaterQualityData(ph, alkalinity, hardness, DetermineQuality(ph, alkalinity, hardness), recommendations);
  }
}
