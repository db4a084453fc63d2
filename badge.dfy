/** The quality badge: a colour variant and a Spanish label for a quality string. */
module Badge {
  import opened H2oTypes

  datatype BadgeVariant = Success | Warning | Error | Info | Neutral

  /** getQualityVariant: excellent and good are successes, fair a warning, poor an error. */
  function GetQualityVariant(quality: string): (v: BadgeVariant)
    ensures v == Success <==> quality == "excellent" || quality == "good"
    ensures v == Warning <==> quality == "fair"
    ensures v == Error <==> quality == "poor"
    ensures v == Neutral <==> ParseQuality(quality).None?
    ensures v != Info
  {
    match quality
    case "excellent" => Success
    case "good" => Success
    case "fair" => Warning
    case "poor" => Error
    case _ => Neutral
  }

  /** The label of each tier. */
  function TierLabel(q: Quality): string {
    match q
    case Excellent => "Excelente"
    case Good => "Buena"
    case Fair => "Regular"
    case Poor => "Deficiente"
  }

  /** getQualityLabel: the tier's label, or the string itself when it names no tier. */
  function GetQualityLabel(quality: string): (text: string)
    ensures forall q: Quality :: quality == QualityName(q) ==> text == TierLabel(q)
    ensures ParseQuality(quality).None? ==> text == quality
  {
    match ParseQuality(quality)
    case Some(q) => TierLabel(q)
    case None => quality
  }

  /** The four tier labels are pairwise distinct and none of them is a tier name. */
  lemma TierLabelsDistinct(q1: Quality, q2: Quality)
    ensures TierLabel(q1) == TierLabel(q2) <==> q1 == q2
    ensures ParseQuality(TierLabel(q1)).None?
  {
  }
}
