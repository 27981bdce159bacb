/**
  Threshold buckets: half-open score ranges `[lo, hi)` and the "first band that
  contains the score" search both the analysis levels and the scoring rules use.
  Scores are only ever compared, never computed, so they are plain integers.
 */
module Bands {
  import opened Wrappers

  /** Lowest score the buckets are meant to cover. */
  const Floor: int := 0
  /** Exclusive upper end of the covered scores (also the rule slider's maximum). */
  const Ceiling: int := 100

  /** A half-open range of scores: `lo` inclusive, `hi` exclusive. */
  datatype Band = Band(lo: int, hi: int)

  /** The test `score >= min && score < max` of the classifier. */
  predicate Contains(b: Band, score: int) {
    b.lo <= score < b.hi
  }

  /**
    Index of the first band that contains `score`, or `None` when no band does:
    the behaviour of `Array.prototype.find` with the containment test.
   */
  function FirstMatch(bands: seq<Band>, score: int): (r: Option<nat>)
    ensures r.Some? ==> r.value < |bands| && Contains(bands[r.value], score)
    ensures r.Some? ==> forall j :: 0 <= j < r.value ==> !Contains(bands[j], score)
    ensures r.None? <==> forall j :: 0 <= j < |bands| ==> !Contains(bands[j], score)
  {
    if |bands| == 0 then None
    else if Contains(bands[0], score) then Some(0)
    else
      match FirstMatch(bands[1..], score)
      case None => None
      case Some(i) => Some(i + 1)
  }

  /**
    The classifier's `find(...) || table[0]`: the index of the first band that
    contains `score`, and index 0 when none does.
   */
  function ClassifyIndex(bands: seq<Band>, score: int): (i: nat)
    requires |bands| > 0
    ensures i < |bands|
    ensures Contains(bands[i], score) ==> forall j :: 0 <= j < i ==> !Contains(bands[j], score)
    ensures !Contains(bands[i], score) ==>
              i == 0 && forall j :: 0 <= j < |bands| ==> !Contains(bands[j], score)
  {
    match FirstMatch(bands, score)
    case Some(i) => i
    case None => 0
  }

  /**
    The coverage invariant of a bucket table: the first band starts at `Floor`,
    the last ends at `Ceiling`, every band is non-empty, and every band starts
    where the previous one ends (no gaps, no overlaps).
   */
  predicate Contiguous(bands: seq<Band>) {
    && |bands| > 0
    && bands[0].lo == Floor
    && bands[|bands| - 1].hi == Ceiling
    && (forall i :: 0 <= i < |bands| ==> bands[i].lo < bands[i].hi)
    && (forall i :: 0 < i < |bands| ==> bands[i].lo == bands[i - 1].hi)
  }

  /** Bands are in ascending order and pairwise disjoint. */
  predicate Ascending(bands: seq<Band>) {
    forall i, j :: 0 <= i < j < |bands| ==> bands[i].hi <= bands[j].lo
  }

  /** Every band lies within `[Floor, Ceiling]` and is non-empty. */
  predicate WithinScale(bands: seq<Band>) {
    forall i :: 0 <= i < |bands| ==> Floor <= bands[i].lo < bands[i].hi <= Ceiling
  }

  /** One step of the ascending order: band `i` ends no later than band `j` starts. */
  lemma {:induction false} BandBefore(bands: seq<Band>, i: nat, j: nat)
    requires Contiguous(bands)
    requires i < j < |bands|
    ensures bands[i].hi <= bands[j].lo
    decreases j - i
  {
    if j > i + 1 {
      BandBefore(bands, i, j - 1);
      assert bands[j - 1].lo < bands[j - 1].hi == bands[j].lo;
    }
  }

  /** A contiguous table is sorted by its lower bounds and pairwise disjoint. */
  lemma ContiguousIsAscending(bands: seq<Band>)
    requires Contiguous(bands)
    ensures Ascending(bands)
  {
    forall i, j | 0 <= i < j < |bands|
      ensures bands[i].hi <= bands[j].lo
    {
      BandBefore(bands, i, j);
    }
  }

  /** A contiguous table stays inside the score scale. */
  lemma ContiguousIsWithinScale(bands: seq<Band>)
    requires Contiguous(bands)
    ensures WithinScale(bands)
  {
    var last := |bands| - 1;
    forall i | 0 <= i < |bands|
      ensures Floor <= bands[i].lo < bands[i].hi <= Ceiling
    {
      if i > 0 { BandBefore(bands, 0, i); }
      if i < last { BandBefore(bands, i, last); }
    }
  }

  /** Some band at or after `k` contains `score` when band `k` starts at or below it. */
  lemma {:induction false} CoveredFrom(bands: seq<Band>, score: int, k: nat)
    requires Contiguous(bands)
    requires k < |bands| && bands[k].lo <= score < Ceiling
    ensures exists i :: k <= i < |bands| && Contains(bands[i], score)
    decreases |bands| - k
  {
    if !Contains(bands[k], score) {
      assert k + 1 < |bands|;
      assert bands[k + 1].lo == bands[k].hi;
      CoveredFrom(bands, score, k + 1);
    }
  }

  /** Coverage: a contiguous table has a band for every score in `[Floor, Ceiling)` and none outside. */
  lemma Coverage(bands: seq<Band>, score: int)
    requires Contiguous(bands)
    ensures (exists i :: 0 <= i < |bands| && Contains(bands[i], score)) <==> Floor <= score < Ceiling
  {
    if Floor <= score < Ceiling {
      CoveredFrom(bands, score, 0);
    } else {
      ContiguousIsWithinScale(bands);
    }
  }

  /** Disjointness: at most one band of a contiguous table contains any score. */
  lemma AtMostOneMatch(bands: seq<Band>, score: int, i: nat, j: nat)
    requires Contiguous(bands)
    requires i < |bands| && j < |bands|
    requires Contains(bands[i], score) && Contains(bands[j], score)
    ensures i == j
  {
    if i < j {
      BandBefore(bands, i, j);
    } else if j < i {
      BandBefore(bands, j, i);
    }
  }

  /**
    Under the coverage invariant the first match is the unique match: a match
    exists exactly for the scores in `[Floor, Ceiling)`, and then it is the only
    band containing the score.
   */
  lemma UniqueMatch(bands: seq<Band>, score: int)
    requires Contiguous(bands)
    ensures FirstMatch(bands, score).Some? <==> Floor <= score < Ceiling
    ensures FirstMatch(bands, score).Some? ==>
              forall j :: 0 <= j < |bands| ==>
                (Contains(bands[j], score) <==> j == FirstMatch(bands, score).value)
  {
    Coverage(bands, score);
    var r := FirstMatch(bands, score);
    if r.Some? {
      forall j | 0 <= j < |bands| && Contains(bands[j], score)
        ensures j == r.value
      {
        AtMostOneMatch(bands, score, j, r.value);
      }
    }
  }

  /**
    What the classifier returns under the coverage invariant: the one band
    containing the score when it lies in `[Floor, Ceiling)`, and the first band
    (the fallback) for every other score, including exactly `Ceiling`.
   */
  lemma ClassifyContiguous(bands: seq<Band>, score: int, k: nat)
    requires Contiguous(bands)
    requires k < |bands|
    ensures ClassifyIndex(bands, score) == k <==>
              (if Floor <= score < Ceiling then Contains(bands[k], score) else k == 0)
  {
    UniqueMatch(bands, score);
  }
}
