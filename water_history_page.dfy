/**
  The history page's own copy of the history logic: it reads the same storage
  key, shows the records newest first, deletes by filtering the list it shows
  and writes that list back, and has its own "needs correction" test and badge.
 */
module WaterHistoryPage {
  import opened Wrappers
  import opened H2oTypes
  import opened AnalysisStorage
  import WaterAnalysis
  import Badge

  /** The page state `analyses`, over the store it shares with the analysis service. */
  class HistoryPage {
    var analyses: seq<SavedAnalysis>
    const storage: AnalysisStore

    constructor (storage: AnalysisStore)
      ensures this.storage == storage && analyses == []
    {
      this.storage := storage;
      analyses := [];
    }

    /** The mount effect: show the stored records newest first; nothing stored keeps the page empty. */
    method Load()
      modifies this
      ensures storage.saved.None? ==> analyses == old(analyses)
      ensures storage.saved.Some? ==> analyses == SortById(storage.saved.value)
      ensures storage.saved.Some? ==> SortedByIdDesc(analyses) && multiset(analyses) == multiset(storage.saved.value)
    {
      if storage.saved.Some? {
        var parsed := storage.saved.value;
        parsed := SortById(parsed);
        analyses := parsed;
      }
    }

    /**
      handleDeleteAnalysis: keeps the shown records with a different id, in
      their order, and stores exactly the list now shown.
     */
    method HandleDeleteAnalysis(id: int)
      modifies this, storage
      ensures analyses == RemoveId(old(analyses), id)
      ensures forall x :: x in analyses <==> x in old(analyses) && x.id != id
      ensures storage.saved == Some(analyses)
    {
      var updated := RemoveId(analyses, id);
      RemoveIdMembers(analyses, id);
      analyses := updated;
      storage.saved := Some(updated);
    }
  }

  /** The page's inline needsCorrection over a record. */
  predicate NeedsCorrection(analysis: SavedAnalysis): (b: bool)
    ensures !b <==> (WaterAnalysis.InOptimal(analysis.ph, WaterAnalysis.PhRange) &&
                     WaterAnalysis.InOptimal(analysis.alkalinity, WaterAnalysis.AlkalinityRange) &&
                     analysis.hardness <= WaterAnalysis.HardnessRange.optimalMax)
  {
    analysis.ph < 6.0 || analysis.ph > 7.0 ||
    analysis.alkalinity < 50.0 || analysis.alkalinity > 150.0 ||
    analysis.hardness > 150.0
  }

  /** The inline copy agrees with the classifier's test on every record. */
  lemma NeedsCorrectionAgrees(analysis: SavedAnalysis)
    ensures NeedsCorrection(analysis) == WaterAnalysis.NeedsCorrection(analysis.ph, analysis.alkalinity, analysis.hardness)
  {
  }

  /** The label shown by getQualityBadge: the tier's label, any other string as is. */
  function QualityBadgeLabel(quality: string): (text: string)
    ensures text == Badge.GetQualityLabel(quality)
  {
    if quality == "excellent" then "Excelente"
    else if quality == "good" then "Buena"
    else if quality == "fair" then "Regular"
    else if quality == "poor" then "Deficiente"
    else quality
  }

  /** The style class of getQualityBadge, grey for a string that names no tier. */
  function QualityBadgeStyle(quality: string): (style: string)
    ensures style == "bg-gray-100 text-gray-700" <==> ParseQuality(quality).None?
  {
    if quality == "excellent" then "bg-green-100 text-green-700"
    else if quality == "good" then "bg-lime-100 text-lime-700"
    else if quality == "fair" then "bg-amber-100 text-amber-700"
    else if quality == "poor" then "bg-red-100 text-red-700"
    else "bg-gray-100 text-gray-700"
  }
}
