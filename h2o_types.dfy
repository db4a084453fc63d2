/**
  Data shapes of the H2O module: a water sample with its quality tier and
  recommendations, the record kept in the analysis history, and the static
  range of one water parameter. Numbers are reals; IEEE doubles are not modelled.
 */
module H2oTypes {
  import opened Wrappers

  /** The four quality tiers, `'excellent' | 'good' | 'fair' | 'poor'`. */
  datatype Quality = Excellent | Good | Fair | Poor

  /** The position of a tier in the order poor < fair < good < excellent. */
  function Rank(q: Quality): nat {
    match q
    case Poor => 0
    case Fair => 1
    case Good => 2
    case Excellent => 3
  }

  /** The string a tier is stored and compared as. */
  function QualityName(q: Quality): string {
    match q
    case Excellent => "excellent"
    case Good => "good"
    case Fair => "fair"
    case Poor => "poor"
  }

  /** Reads a quality string back; any other string is not a tier. */
  function ParseQuality(s: string): (r: Option<Quality>)
    ensures r.Some? ==> QualityName(r.value) == s
  {
    if s == "excellent" then Some(Excellent)
    else if s == "good" then Some(Good)
    else if s == "fair" then Some(Fair)
    else if s == "poor" then Some(Poor)
    else None
  }

  /** Every tier name reads back as that tier, so the names are pairwise distinct. */
  lemma ParseQualityName(q: Quality)
    ensures ParseQuality(QualityName(q)) == Some(q)
  {
  }

  /** A string is a tier name exactly when it parses. */
  lemma ParseQualityComplete(s: string)
    ensures ParseQuality(s).None? <==> forall q: Quality :: QualityName(q) != s
  {
    if ParseQuality(s).None? {
      forall q: Quality ensures QualityName(q) != s {
        ParseQualityName(q);
      }
    }
  }

  /** `WaterQualityData`: one analysed sample. */
  datatype WaterQualityData = WaterQualityData(
    ph: real,
    alkalinity: real,
    hardness: real,
    quality: Quality,
    recommendations: seq<string>)

  /**
    `SavedAnalysis`: a sample as kept in the history, keyed by `id` (the save
    timestamp). Older records may lack `recommendations`, hence the Option.
   */
  datatype SavedAnalysis = SavedAnalysis(
    id: int,
    date: string,
    location: Option<string>,
    ph: real,
    alkalinity: real,
    hardness: real,
    quality: Quality,
    recommendations: Option<seq<string>>)

  /** `ParameterRange`: display scale `min..max`, optimal band `optimalMin..optimalMax`, unit and label (`label` is a Dafny keyword, hence `labelText`). */
  datatype ParameterRange = ParameterRange(
    min: real,
    max: real,
    optimalMin: real,
    optimalMax: real,
    unit: string,
    labelText: string)
}
