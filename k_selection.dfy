/**
 * Choice of the number of clusters by the `/cluster` route (backend/app.py:104-123).
 * Every k from 2 to `max_k` is tried; a trial whose labels have fewer than two
 * distinct values, or whose silhouette score raised, is skipped; otherwise its
 * score is kept and replaces the best one only when strictly greater.
 * The silhouette arithmetic is abstract: `score(k)` is the trial's outcome.
 */
module KSelection {
  import opened Wrappers

  /** `min_k`, and also the answer when no trial scores above -1. */
  const MinK := 2

  /** The largest k that is tried, for `n` cleaned rows (app.py:105). */
  function MaxK(n: int): (r: int)
    ensures MinK <= r <= 10
    ensures n > 3 ==> r <= n - 1
    ensures 4 <= n <= 11 ==> r == n - 1
    ensures n <= 3 || n >= 11 ==> r == if n <= 3 then 2 else 10
  {
    if n > 3 then (if 10 < n - 1 then 10 else n - 1) else 2
  }

  /** Trial `k` scored strictly above the initial best of -1. */
  predicate Beats(score: int -> Option<real>, k: int) {
    score(k).Some? && score(k).value > -1.0
  }

  /**
   * The selection rule stated without the loop: the smallest k in [2, maxK]
   * whose score is the maximum of the scores and above -1; 2 when no trial
   * scores above -1.
   */
  ghost predicate IsBestK(score: int -> Option<real>, maxK: int, k: int) {
    if exists j :: MinK <= j <= maxK && Beats(score, j) then
      && MinK <= k <= maxK
      && Beats(score, k)
      && (forall j :: MinK <= j <= maxK && score(j).Some? ==>
            score(j).value <= score(k).value)
      && (forall j :: MinK <= j < k && score(j).Some? ==>
            score(j).value < score(k).value)
    else
      k == MinK
  }

  /** The `scores` list: the kept scores of trials lo..hi, in ascending k. */
  function ScoresBetween(score: int -> Option<real>, lo: int, hi: int): seq<real>
    decreases hi - lo
  {
    if hi < lo then []
    else ScoresBetween(score, lo, hi - 1) + (if score(hi).Some? then [score(hi).value] else [])
  }

  /** The `best_k` loop (app.py:106-122). */
  method SelectBestK(maxK: int, score: int -> Option<real>) returns (bestK: int, scores: seq<real>)
    ensures IsBestK(score, maxK, bestK)
    ensures MinK <= bestK && (bestK == MinK || bestK <= maxK)
    ensures scores == ScoresBetween(score, MinK, maxK)
  {
    bestK := MinK;
    var bestScore: real := -1.0;
    scores := [];
    var k := MinK;
    while k <= maxK
      invariant MinK <= k && (k <= maxK + 1 || k == MinK)
      invariant scores == ScoresBetween(score, MinK, k - 1)
      invariant bestScore >= -1.0
      invariant forall j :: MinK <= j < k && score(j).Some? ==> score(j).value <= bestScore
      invariant bestScore == -1.0 ==> bestK == MinK
      invariant bestScore > -1.0 ==>
        && MinK <= bestK < k
        && score(bestK) == Some(bestScore)
        && forall j :: MinK <= j < bestK && score(j).Some? ==> score(j).value < bestScore
      decreases maxK - k
    {
      match score(k) {
        case None =>
          // fewer than two distinct labels, or the silhouette score raised: skip k
        case Some(s) =>
          scores := scores + [s];
          if s > bestScore {
            bestScore := s;
            bestK := k;
          }
      }
      k := k + 1;
    }
    if bestScore > -1.0 {
      assert Beats(score, bestK);  // the witness that some trial beat -1
    }
  }

  /** The rule picks at most one k. */
  lemma BestKIsUnique(score: int -> Option<real>, maxK: int, k1: int, k2: int)
    requires IsBestK(score, maxK, k1) && IsBestK(score, maxK, k2)
    ensures k1 == k2
  {
  }

  /** With `max_k` from the row count, the chosen k lies in [2, 10] and never exceeds the rows. */
  lemma BestKBounds(score: int -> Option<real>, n: int, k: int)
    requires n >= 2
    requires IsBestK(score, MaxK(n), k)
    ensures MinK <= k <= 10 && k <= n
  {
  }

  /** Every k the loop tries fits the row count once there are at least two rows. */
  lemma TrialsFitRowCount(n: int, k: int)
    requires n >= 2 && MinK <= k <= MaxK(n)
    ensures k <= n
  {
  }
}
