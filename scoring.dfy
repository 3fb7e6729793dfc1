/**
 * What the two scorers share: the five mood buckets in their fixed order, the
 * label/score record they produce, and normalisation to percentages.
 */
module Scoring {

  /** The mood buckets, in the order every result lists them. */
  const Moods: seq<string> := ["Happy", "Sad", "Angry", "Calm", "Anxious"]

  /** Parallel `labels` and `scores` lists, as both scorers return and entries store them. */
  datatype Distribution = Distribution(labels: seq<string>, scores: seq<real>)

  /** A well-formed result: the five labels in order, one score each. */
  predicate Shaped(d: Distribution) {
    d.labels == Moods && |d.scores| == |Moods|
  }

  /** Python's `sum` over a list of numbers. */
  function Sum(s: seq<real>): real {
    if s == [] then 0.0 else Sum(s[..|s| - 1]) + s[|s| - 1]
  }

  /** Every score divided by `total` and scaled to a percentage. */
  function Normalize(c: seq<real>, total: real): (r: seq<real>)
    requires total != 0.0
  {
    seq(|c|, i requires 0 <= i < |c| => c[i] / total * 100.0)
  }

  /** Scaling each element scales the sum. */
  lemma {:induction false} SumNormalize(c: seq<real>, total: real)
    requires total != 0.0
    ensures Sum(Normalize(c, total)) == Sum(c) / total * 100.0
    decreases |c|
  {
    if c != [] {
      var n := |c| - 1;
      assert Normalize(c, total)[..n] == Normalize(c[..n], total);
      SumNormalize(c[..n], total);
      assert Sum(c[..n]) / total * 100.0 + c[n] / total * 100.0 == (Sum(c[..n]) + c[n]) / total * 100.0;
    }
  }

  /** Normalising by the positive total of the scores gives percentages that sum to 100. */
  lemma NormalizeSumsTo100(c: seq<real>)
    requires Sum(c) > 0.0
    ensures Sum(Normalize(c, Sum(c))) == 100.0
  {
    var t := Sum(c);
    SumNormalize(c, t);
    assert t / t == 1.0;
  }

  /** A sum of non-negative numbers is non-negative. */
  lemma {:induction false} SumNonNegative(s: seq<real>)
    requires forall i :: 0 <= i < |s| ==> s[i] >= 0.0
    ensures Sum(s) >= 0.0
    decreases |s|
  {
    if s != [] {
      SumNonNegative(s[..|s| - 1]);
    }
  }

  /** The first `n` elements of a sequence sum to the sum of the first `n - 1` plus element `n - 1`. */
  lemma SumPrefixStep(s: seq<real>, n: nat)
    requires 0 < n <= |s|
    ensures Sum(s[..n]) == Sum(s[..n - 1]) + s[n - 1]
  {
    assert s[..n][..n - 1] == s[..n - 1];
  }

  /**
   * The in-place loop `for mood in mood_scores: mood_scores[mood] =
   * (mood_scores[mood] / total) * 100` that both scorers run.
   */
  method NormalizeInPlace(scores: seq<real>, total: real) returns (r: seq<real>)
    requires total != 0.0
    ensures r == Normalize(scores, total)
  {
    r := scores;
    var i := 0;
    while i < |r|
      invariant 0 <= i <= |r| == |scores|
      invariant forall k :: 0 <= k < i ==> r[k] == scores[k] / total * 100.0
      invariant forall k :: i <= k < |r| ==> r[k] == scores[k]
    {
      r := r[i := r[i] / total * 100.0];
      i := i + 1;
    }
  }
}
