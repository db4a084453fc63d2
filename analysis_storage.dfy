/**
  The analysis history: a list of saved analyses kept under one storage key,
  read back newest first (by id, the save timestamp), appended on save, looked
  up by id and filtered on delete.
 */
module AnalysisStorage {
  import opened Wrappers
  import opened H2oTypes
  import WaterAnalysis

  /** Newest first: ids never increase along the list. */
  predicate SortedByIdDesc(s: seq<SavedAnalysis>) {
    forall i, j :: 0 <= i < j < |s| ==> s[i].id >= s[j].id
  }

  /** The records with id `k`, in the order they appear in `s`. */
  function WithId(s: seq<SavedAnalysis>, k: int): seq<SavedAnalysis> {
    if s == [] then [] else (if s[0].id == k then [s[0]] else []) + WithId(s[1..], k)
  }

  /** `WithId(s, k)` holds exactly the records of `s` whose id is `k`. */
  lemma {:induction false} WithIdMembers(s: seq<SavedAnalysis>, k: int)
    ensures forall x :: x in WithId(s, k) <==> x in s && x.id == k
  {
    if s != [] {
      WithIdMembers(s[1..], k);
      assert s == [s[0]] + s[1..];
    }
  }

  /** `s.filter(a => a.id !== k)`. */
  function RemoveId(s: seq<SavedAnalysis>, k: int): (r: seq<SavedAnalysis>)
    ensures |r| <= |s|
  {
    if s == [] then [] else (if s[0].id != k then [s[0]] else []) + RemoveId(s[1..], k)
  }

  /** `RemoveId(s, k)` holds exactly the records of `s` whose id is not `k`. */
  lemma {:induction false} RemoveIdMembers(s: seq<SavedAnalysis>, k: int)
    ensures forall x :: x in RemoveId(s, k) <==> x in s && x.id != k
  {
    if s != [] {
      RemoveIdMembers(s[1..], k);
      assert s == [s[0]] + s[1..];
    }
  }

  /** No record has the id exactly when none is selected by it. */
  lemma NoneWithId(s: seq<SavedAnalysis>, k: int)
    ensures WithId(s, k) == [] <==> forall j :: 0 <= j < |s| ==> s[j].id != k
    ensures WithId(s, k) == [] <==> forall x :: x in s ==> x.id != k
  {
    WithIdMembers(s, k);
    if WithId(s, k) != [] {
      assert WithId(s, k)[0] in WithId(s, k);
    }
  }

  /** Putting a record with an id at least every listed id in front keeps a list newest first. */
  lemma PrependSorted(x: SavedAnalysis, s: seq<SavedAnalysis>)
    requires SortedByIdDesc(s)
    requires forall y :: y in s ==> y.id <= x.id
    ensures SortedByIdDesc([x] + s)
  {
    var r := [x] + s;
    forall i, j | 0 <= i < j < |r| ensures r[i].id >= r[j].id {
      assert r[j] == s[j - 1];
      if i > 0 {
        assert r[i] == s[i - 1];
      } else {
        assert s[j - 1] in s;
      }
    }
  }

  /** In a newest-first list, nothing after the head has a larger id. */
  lemma TailBound(s: seq<SavedAnalysis>, y: SavedAnalysis)
    requires SortedByIdDesc(s) && s != [] && y in s[1..]
    ensures y.id <= s[0].id
  {
    var j :| 0 <= j < |s[1..]| && s[1..][j] == y;
    assert s[j + 1] == y;
  }

  /** Inserts `x` into a newest-first list, ahead of the records with the same id. */
  function InsertById(x: SavedAnalysis, s: seq<SavedAnalysis>): (r: seq<SavedAnalysis>)
    requires SortedByIdDesc(s)
    ensures SortedByIdDesc(r)
    ensures multiset(r) == multiset{x} + multiset(s)
    ensures |r| == |s| + 1
  {
    if s == [] || x.id >= s[0].id then
      PrependSorted(x, s);
      [x] + s
    else
      assert s == [s[0]] + s[1..];
      var rest := InsertById(x, s[1..]);
      assert forall y :: y in rest ==> y.id <= s[0].id by {
        forall y | y in rest ensures y.id <= s[0].id {
          assert y in multiset(rest);
          if y != x {
            assert y in multiset(s[1..]);
            TailBound(s, y);
          }
        }
      }
      PrependSorted(s[0], rest);
      [s[0]] + rest
  }

  /**
    `analyses.sort((a, b) => b.id - a.id)`: the engine's sort is stable, so it
    is modelled by insertion sort, which keeps records with equal ids in their
    stored order.
   */
  function SortById(s: seq<SavedAnalysis>): (r: seq<SavedAnalysis>)
    ensures SortedByIdDesc(r)
    ensures multiset(r) == multiset(s)
    ensures |r| == |s|
  {
    if s == [] then []
    else
      assert s == [s[0]] + s[1..];
      InsertById(s[0], SortById(s[1..]))
  }

  lemma {:induction false} WithIdAppend(a: seq<SavedAnalysis>, b: seq<SavedAnalysis>, k: int)
    ensures WithId(a + b, k) == WithId(a, k) + WithId(b, k)
  {
    if a == [] {
      assert a + b == b;
    } else {
      var head := if a[0].id == k then [a[0]] else [];
      assert (a + b)[0] == a[0];
      assert (a + b)[1..] == a[1..] + b;
      assert WithId(a + b, k) == head + WithId(a[1..] + b, k);
      WithIdAppend(a[1..], b, k);
      assert WithId(a, k) == head + WithId(a[1..], k);
    }
  }

  lemma {:induction false} WithIdInsert(x: SavedAnalysis, s: seq<SavedAnalysis>, k: int)
    requires SortedByIdDesc(s)
    ensures WithId(InsertById(x, s), k) == (if x.id == k then [x] else []) + WithId(s, k)
  {
    if s == [] || x.id >= s[0].id {
      assert InsertById(x, s) == [x] + s;
      WithIdAppend([x], s, k);
    } else {
      var rest := InsertById(x, s[1..]);
      assert InsertById(x, s) == [s[0]] + rest;
      WithIdInsert(x, s[1..], k);
      WithIdAppend([s[0]], rest, k);
      WithIdAppend([s[0]], s[1..], k);
      assert [s[0]] + s[1..] == s;
      if x.id == k {
        assert WithId([s[0]], k) == [];
      }
    }
  }

  /** The sort is stable: for every id, the records with that id keep their order. */
  lemma {:induction false} SortStable(s: seq<SavedAnalysis>, k: int)
    ensures WithId(SortById(s), k) == WithId(s, k)
  {
    if s != [] {
      SortStable(s[1..], k);
      WithIdInsert(s[0], SortById(s[1..]), k);
    }
  }

  /** The first record of `s` with id `k` is the first entry of `WithId(s, k)`. */
  lemma {:induction false} WithIdFirst(s: seq<SavedAnalysis>, i: nat, k: int)
    requires i < |s| && s[i].id == k
    requires forall j :: 0 <= j < i ==> s[j].id != k
    ensures WithId(s, k) != [] && WithId(s, k)[0] == s[i]
  {
    if i > 0 {
      WithIdFirst(s[1..], i - 1, k);
    }
  }

  /**
    A newest-first list that keeps, for every id, the stored order of the
    records with that id is exactly `SortById`: the stable sort is unique.
   */
  lemma {:induction false} StableSortUnique(s: seq<SavedAnalysis>, r: seq<SavedAnalysis>)
    requires SortedByIdDesc(r)
    requires forall k :: WithId(r, k) == WithId(s, k)
    ensures r == SortById(s)
  {
    var t := SortById(s);
    forall k ensures WithId(r, k) == WithId(t, k) {
      SortStable(s, k);
    }
    SortedUnique(r, t);
  }

  /** The head of a newest-first list has the largest id. */
  lemma SortedHeadMax(s: seq<SavedAnalysis>, x: SavedAnalysis)
    requires SortedByIdDesc(s) && x in s
    ensures x.id <= s[0].id
  {
    var j :| 0 <= j < |s| && s[j] == x;
  }

  lemma {:induction false} SortedUnique(a: seq<SavedAnalysis>, b: seq<SavedAnalysis>)
    requires SortedByIdDesc(a) && SortedByIdDesc(b)
    requires forall k :: WithId(a, k) == WithId(b, k)
    ensures a == b
  {
    if a != [] && b != [] {
      WithIdMembers(a, a[0].id);
      WithIdMembers(b, a[0].id);
      WithIdMembers(a, b[0].id);
      WithIdMembers(b, b[0].id);
      assert a[0] in WithId(a, a[0].id) && WithId(a, a[0].id) == WithId(b, a[0].id);
      SortedHeadMax(b, a[0]);
      assert b[0] in WithId(b, b[0].id) && WithId(b, b[0].id) == WithId(a, b[0].id);
      SortedHeadMax(a, b[0]);
      var m := a[0].id;
      assert b[0].id == m;
      WithIdFirst(a, 0, m);
      WithIdFirst(b, 0, m);
      assert WithId(a, m) == WithId(b, m);
      assert a[0] == b[0];
      forall k ensures WithId(a[1..], k) == WithId(b[1..], k) {
        var head := if a[0].id == k then [a[0]] else [];
        assert WithId(a, k) == head + WithId(a[1..], k);
        assert WithId(b, k) == head + WithId(b[1..], k);
        assert WithId(a, k) == WithId(b, k);
        assert WithId(a[1..], k) == WithId(a, k)[|head|..];
      }
      SortedUnique(a[1..], b[1..]);
      assert a == [a[0]] + a[1..];
      assert b == [b[0]] + b[1..];
    } else if a != [] {
      assert WithId(a, a[0].id) != WithId(b, a[0].id);
    } else if b != [] {
      assert WithId(a, b[0].id) != WithId(b, b[0].id);
    }
  }

  /** Sorting a list that is already newest first changes nothing. */
  lemma {:induction false} SortSortedIdentity(s: seq<SavedAnalysis>)
    requires SortedByIdDesc(s)
    ensures SortById(s) == s
  {
    forall k ensures WithId(s, k) == WithId(s, k) { }
    StableSortUnique(s, s);
  }

  /** Filtering keeps the order: it works piecewise on a concatenation. */
  lemma {:induction false} RemoveIdAppend(a: seq<SavedAnalysis>, b: seq<SavedAnalysis>, k: int)
    ensures RemoveId(a + b, k) == RemoveId(a, k) + RemoveId(b, k)
  {
    if a == [] {
      assert a + b == b;
    } else {
      assert (a + b)[1..] == a[1..] + b;
      RemoveIdAppend(a[1..], b, k);
    }
  }

  /** The records kept and the records dropped together are the original records. */
  lemma {:induction false} RemoveIdSplit(s: seq<SavedAnalysis>, k: int)
    ensures multiset(RemoveId(s, k)) + multiset(WithId(s, k)) == multiset(s)
  {
    if s != [] {
      RemoveIdSplit(s[1..], k);
      var kept := if s[0].id != k then [s[0]] else [];
      var dropped := if s[0].id == k then [s[0]] else [];
      assert RemoveId(s, k) == kept + RemoveId(s[1..], k);
      assert WithId(s, k) == dropped + WithId(s[1..], k);
      assert multiset(kept) + multiset(dropped) == multiset{s[0]};
      assert s == [s[0]] + s[1..];
    }
  }

  /** A list without the id is left as it is. */
  lemma {:induction false} RemoveIdAbsent(s: seq<SavedAnalysis>, k: int)
    requires forall x :: x in s ==> x.id != k
    ensures RemoveId(s, k) == s
  {
    if s != [] {
      RemoveIdAbsent(s[1..], k);
      assert s == [s[0]] + s[1..];
    }
  }

  /** Filtering a newest-first list leaves it newest first. */
  lemma {:induction false} RemoveIdSorted(s: seq<SavedAnalysis>, k: int)
    requires SortedByIdDesc(s)
    ensures SortedByIdDesc(RemoveId(s, k))
  {
    if s != [] {
      RemoveIdSorted(s[1..], k);
      var rest := RemoveId(s[1..], k);
      RemoveIdMembers(s[1..], k);
      assert SortedByIdDesc(s[1..]);
      if s[0].id != k {
        forall y | y in rest ensures y.id <= s[0].id {
          var j :| 0 <= j < |s[1..]| && s[1..][j] == y;
          assert s[j + 1] == y;
        }
        PrependSorted(s[0], rest);
      }
    }
  }

  /** `Array.prototype.find` by id: the index of the first record with the id, or |s| when there is none. */
  method FindId(s: seq<SavedAnalysis>, k: int) returns (i: nat)
    ensures i <= |s|
    ensures forall j :: 0 <= j < i ==> s[j].id != k
    ensures i < |s| ==> s[i].id == k
  {
    i := 0;
    while i < |s| && s[i].id != k
      invariant i <= |s|
      invariant forall j :: 0 <= j < i ==> s[j].id != k
    {
      i := i + 1;
    }
  }

  /** What a lookup returns for a stored record: recomputed recommendations when it has none. */
  function Summary(a: SavedAnalysis): (r: WaterQualityData)
    ensures r.ph == a.ph && r.alkalinity == a.alkalinity && r.hardness == a.hardness && r.quality == a.quality
    ensures a.recommendations.Some? ==> r.recommendations == a.recommendations.value
    ensures a.recommendations.None? ==> r.recommendations == WaterAnalysis.Recommendations(a.ph, a.alkalinity, a.hardness)
  {
    WaterQualityData(a.ph, a.alkalinity, a.hardness, a.quality,
      a.recommendations.GetOr(WaterAnalysis.Recommendations(a.ph, a.alkalinity, a.hardness)))
  }

  /** The records under the storage key: a list, or nothing when the key is absent. */
  class AnalysisStore {
    var saved: Option<seq<SavedAnalysis>>

    constructor ()
      ensures saved == None
    {
      saved := None;
    }

    /** The stored records, empty when nothing is stored. */
    function Stored(): seq<SavedAnalysis>
      reads this
    {
      saved.GetOr([])
    }

    /** getAnalyses: the stored records, newest first. Storage is not changed. */
    method GetAnalyses() returns (analyses: seq<SavedAnalysis>)
      ensures saved.None? ==> analyses == []
      ensures SortedByIdDesc(analyses) && multiset(analyses) == multiset(Stored())
      ensures forall k :: WithId(analyses, k) == WithId(Stored(), k)
      ensures analyses == SortById(Stored())
    {
      if saved.None? {
        return [];
      }
      analyses := SortById(saved.value);
      forall k ensures WithId(analyses, k) == WithId(Stored(), k) {
        SortStable(saved.value, k);
      }
    }

    /**
      saveAnalysis: the new record gets the current time as id and date, and is
      appended after the newest-first list of the old records.
     */
    method SaveAnalysis(analysis: WaterQualityData, location: Option<string>, now: int, isoDate: string)
      returns (newAnalysis: SavedAnalysis)
      modifies this
      ensures newAnalysis == SavedAnalysis(now, isoDate, location, analysis.ph, analysis.alkalinity,
                                           analysis.hardness, analysis.quality, Some(analysis.recommendations))
      ensures saved == Some(SortById(old(Stored())) + [newAnalysis])
      ensures |Stored()| == |old(Stored())| + 1
      ensures multiset(Stored()) == multiset(old(Stored())) + multiset{newAnalysis}
      ensures Stored()[|Stored()| - 1] == newAnalysis
    {
      var analyses := GetAnalyses();
      assert |analyses| == |old(Stored())|;
      newAnalysis := SavedAnalysis(now, isoDate, location, analysis.ph, analysis.alkalinity,
                                   analysis.hardness, analysis.quality, Some(analysis.recommendations));
      analyses := analyses + [newAnalysis];
      saved := Some(analyses);
    }

    /**
      getAnalysisById: nothing when no stored record has the id; otherwise the
      values of the first such record in stored order, with its recommendations
      recomputed only when it has none.
     */
    method GetAnalysisById(id: int) returns (result: Option<WaterQualityData>)
      ensures result.None? <==> forall a :: a in Stored() ==> a.id != id
      ensures result.Some? ==> WithId(Stored(), id) != [] && result.value == Summary(WithId(Stored(), id)[0])
    {
      var analyses := GetAnalyses();
      var i := FindId(analyses, id);
      ghost var stored := Stored();
      assert WithId(stored, id) == WithId(analyses, id);
      NoneWithId(analyses, id);
      NoneWithId(stored, id);
      if i == |analyses| {
        result := None;
      } else {
        var found := analyses[i];
        WithIdFirst(analyses, i, id);
        var recommendations: seq<string>;
        if found.recommendations.Some? {
          recommendations := found.recommendations.value;
        } else {
          recommendations := WaterAnalysis.GetRecommendations(found.ph, found.alkalinity, found.hardness);
        }
        result := Some(WaterQualityData(found.ph, found.alkalinity, found.hardness, found.quality, recommendations));
      }
    }

    /** deleteAnalysis: stores the newest-first list without the records of that id. */
    method DeleteAnalysis(id: int)
      modifies this
      ensures saved == Some(RemoveId(SortById(old(Stored())), id))
      ensures forall x :: x in Stored() <==> x in old(Stored()) && x.id != id
      ensures multiset(Stored()) + multiset(WithId(old(Stored()), id)) == multiset(old(Stored()))
    {
      ghost var before := Stored();
      var analyses := GetAnalyses();
      ghost var sorted := analyses;
      analyses := RemoveId(analyses, id);
      saved := Some(analyses);
      RemoveIdMembers(sorted, id);
      forall x ensures x in sorted <==> x in before {
        assert x in sorted <==> x in multiset(sorted);
        assert x in before <==> x in multiset(before);
      }
      RemoveIdSplit(sorted, id);
      SortStable(before, id);
    }
  }

  /** Deleting the same id twice leaves what deleting it once left. */
  lemma DeleteIdempotent(stored: seq<SavedAnalysis>, id: int)
    ensures var once := RemoveId(SortById(stored), id);
            RemoveId(SortById(once), id) == once
  {
    var once := RemoveId(SortById(stored), id);
    RemoveIdSorted(SortById(stored), id);
    RemoveIdMembers(SortById(stored), id);
    SortSortedIdentity(once);
    RemoveIdAbsent(once, id);
  }

  /** Deleting an id no record has keeps every record (only the order may change). */
  lemma DeleteAbsentKeepsRecords(stored: seq<SavedAnalysis>, id: int)
    requires forall x :: x in stored ==> x.id != id
    ensures multiset(RemoveId(SortById(stored), id)) == multiset(stored)
  {
    var sorted := SortById(stored);
    forall x | x in sorted ensures x.id != id {
      assert x in multiset(stored);
    }
    RemoveIdAbsent(sorted, id);
  }
}
