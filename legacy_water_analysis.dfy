/**
  The older two-parameter classifier: general hardness in dGH and pH, graded by
  nested excellent / good / fair bands, with a fixed three-line recommendation
  list (hardness, pH, general).
 */
module LegacyWaterAnalysis {
  import opened H2oTypes

  /** The older `WaterQualityData`: hardness (dGH), pH, tier and recommendations. */
  datatype LegacyWaterQualityData = LegacyWaterQualityData(
    hardness: real,
    ph: real,
    quality: Quality,
    recommendations: seq<string>)

  /**
    The band a tier stands for; poor has no bound. The hardness and pH limits
    widen from excellent to fair.
   */
  predicate InBand(q: Quality, hardness: real, ph: real) {
    match q
    case Excellent => hardness <= 4.0 && 6.5 <= ph <= 7.5
    case Good => hardness <= 8.0 && 6.0 <= ph <= 8.0
    case Fair => hardness <= 10.0 && 5.5 <= ph <= 8.5
    case Poor => true
  }

  /** The bands are nested: a better band lies inside every worse one. */
  lemma BandsNested(q1: Quality, q2: Quality, hardness: real, ph: real)
    requires Rank(q1) >= Rank(q2)
    requires InBand(q1, hardness, ph)
    ensures InBand(q2, hardness, ph)
  {
  }

  /** determineQuality: the best tier whose band holds the sample. */
  function DetermineQuality(hardness: real, ph: real): (q: Quality)
    ensures InBand(q, hardness, ph)
    ensures forall better: Quality :: Rank(better) > Rank(q) ==> !InBand(better, hardness, ph)
  {
    var hardnessOptimal := hardness <= 4.0;
    var phOptimal := ph >= 6.5 && ph <= 7.5;
    if hardnessOptimal && phOptimal then Excellent
    else
      var hardnessAcceptable := hardness <= 8.0;
      var phAcceptable := ph >= 6.0 && ph <= 8.0;
      if hardnessAcceptable && phAcceptable then Good
      else
        var hardnessTolerable := hardness <= 10.0;
        var phTolerable := ph >= 5.5 && ph <= 8.5;
        if hardnessTolerable && phTolerable then Fair
        else Poor
  }

  // The recommendation texts
  const HardnessHigh := "Dureza alta: Usar un ablandador de agua o mezclar con agua destilada"
  const HardnessModerate := "Dureza moderada: Considera usar agua filtrada para mejorar la calidad"
  const HardnessOptimal := "Dureza óptima: El agua está perfecta en este aspecto"
  const PhLow := "pH bajo (ácido): Añade bicarbonato de sodio gradualmente para subir el pH"
  const PhHigh := "pH alto (alcalino): Usa ácido cítrico o vinagre blanco para bajar el pH"
  const PhOptimal := "pH óptimo: El nivel de acidez es ideal"
  const Perfect := "Perfecto: Tu agua está en condiciones óptimas"
  const Adjust := "Realiza ajustes graduales y vuelve a medir después de 24 horas"

  /**
    The three recommendation lines: hardness, pH, general. The hardness line
    follows the excellent and good hardness limits, the pH line the excellent
    pH limits, and the general line is the "Perfecto" one exactly for an
    excellent sample.
   */
  function Recommendations(hardness: real, ph: real): (recs: seq<string>)
    ensures |recs| == 3
    ensures recs[0] == HardnessOptimal <==> hardness <= 4.0
    ensures recs[0] == HardnessModerate <==> 4.0 < hardness <= 8.0
    ensures recs[0] == HardnessHigh <==> hardness > 8.0
    ensures recs[1] == PhLow <==> ph < 6.5
    ensures recs[1] == PhHigh <==> ph > 7.5
    ensures recs[1] == PhOptimal <==> 6.5 <= ph <= 7.5
    ensures recs[2] == Perfect <==> DetermineQuality(hardness, ph) == Excellent
    ensures recs[2] == Adjust <==> DetermineQuality(hardness, ph) != Excellent
  {
    var hardnessLine := if hardness > 8.0 then HardnessHigh else if hardness > 4.0 then HardnessModerate else HardnessOptimal;
    var phLine := if ph < 6.5 then PhLow else if ph > 7.5 then PhHigh else PhOptimal;
    var generalLine := if InBand(Excellent, hardness, ph) then Perfect else Adjust;
    [hardnessLine, phLine, generalLine]
  }

  /** generateRecommendations: pushes the hardness, pH and general lines in turn. */
  method GenerateRecommendations(hardness: real, ph: real) returns (recommendations: seq<string>)
    ensures recommendations == Recommendations(hardness, ph)
  {
    recommendations := [];
    if hardness > 8.0 {
      recommendations := recommendations + [HardnessHigh];
    } else if hardness > 4.0 {
      recommendations := recommendations + [HardnessModerate];
    } else {
      recommendations := recommendations + [HardnessOptimal];
    }
    if ph < 6.5 {
      recommendations := recommendations + [PhLow];
    } else if ph > 7.5 {
      recommendations := recommendations + [PhHigh];
    } else {
      recommendations := recommendations + [PhOptimal];
    }
    if hardness <= 4.0 && ph >= 6.5 && ph <= 7.5 {
      recommendations := recommendations + [Perfect];
    } else {
      recommendations := recommendations + [Adjust];
    }
  }

  /** getQualityColor: one colour per tier. */
  function GetQualityColor(q: Quality): string {
    match q
    case Excellent => "#10b981"
    case Good => "#3b82f6"
    case Fair => "#f59e0b"
    case Poor => "#ef4444"
  }

  /** getQualityLabel: one Spanish label per tier. */
  function GetQualityLabel(q: Quality): string {
    match q
    case Excellent => "Excelente"
    case Good => "Buena"
    case Fair => "Regular"
    case Poor => "Mala"
  }

  /** Both maps are total over the four tiers and tell every two tiers apart. */
  lemma ColorAndLabelDistinct(q1: Quality, q2: Quality)
    ensures GetQualityColor(q1) == GetQualityColor(q2) <==> q1 == q2
    ensures GetQualityLabel(q1) == GetQualityLabel(q2) <==> q1 == q2
  {
  }

  /** analyzeWaterStrip, with the two random readings taken as inputs. */
  method AnalyzeWaterStrip(hardness: real, ph: real) returns (result: LegacyWaterQualityData)
    ensures result.hardness == hardness && result.ph == ph
    ensures result.quality == DetermineQuality(hardness, ph)
    ensures result.recommendations == Recommendations(hardness, ph)
  {
    var quality := DetermineQuality(hardness, ph);
    var recommendations := GenerateRecommendations(hardness, ph);
    result := LegacyWaterQualityData(hardness, ph, quality, recommendations);
  }
}
