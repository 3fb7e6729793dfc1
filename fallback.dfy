/**
 * The local keyword scorer `simple_emotion_detection`: per mood, the number of
 * keyword occurrences in the lower-cased text, turned into percentages, or a
 * uniform 20 for every mood when no keyword occurs.
 */
module Fallback {
  import opened Text
  import opened Scoring

  /** The keyword list of each mood, in the order of `Moods`. */
  const EmotionKeywords: seq<seq<string>> := [
    ["happy", "joy", "excited", "great", "wonderful", "amazing", "love", "good"],
    ["sad", "unhappy", "depressed", "down", "miserable", "grief", "crying"],
    ["angry", "mad", "furious", "rage", "annoyed", "irritated"],
    ["calm", "peaceful", "relaxed", "serene", "tranquil"],
    ["anxious", "worried", "nervous", "stressed", "afraid", "scared"]
  ]

  /** The score every mood gets when the text contains no keyword at all. */
  const UniformScore: real := 20.0

  /** The keyword lists line up with the moods and hold no empty keyword. */
  lemma KeywordsWellFormed()
    ensures |EmotionKeywords| == |Moods|
    ensures forall i, j :: 0 <= i < |EmotionKeywords| && 0 <= j < |EmotionKeywords[i]| ==> |EmotionKeywords[i][j]| > 0
  {
  }

  /** The sum of `text.count(keyword)` over a keyword list. */
  function Hits(text: string, keywords: seq<string>): nat {
    if keywords == [] then 0
    else Hits(text, keywords[..|keywords| - 1]) + Count(text, keywords[|keywords| - 1])
  }

  /** Some keyword of the list occurs in the text. */
  ghost predicate Mentions(text: string, keywords: seq<string>) {
    exists j :: 0 <= j < |keywords| && Contains(text, keywords[j])
  }

  /** A list of non-empty keywords has hits exactly when one of them occurs. */
  lemma {:induction false} HitsPositiveIff(text: string, keywords: seq<string>)
    requires forall j :: 0 <= j < |keywords| ==> |keywords[j]| > 0
    ensures Hits(text, keywords) > 0 <==> Mentions(text, keywords)
    decreases |keywords|
  {
    if keywords != [] {
      var n := |keywords| - 1;
      var init := keywords[..n];
      HitsPositiveIff(text, init);
      CountPositiveIff(text, keywords[n]);
      if Mentions(text, init) {
        var j :| 0 <= j < |init| && Contains(text, init[j]);
        assert keywords[j] == init[j];
      }
      if Mentions(text, keywords) {
        var j :| 0 <= j < |keywords| && Contains(text, keywords[j]);
        if j < n {
          assert init[j] == keywords[j];
        }
      }
    }
  }

  /** The per-mood hit counts of the loops at the top of `simple_emotion_detection`. */
  function KeywordCounts(content: string): (r: seq<real>)
    ensures |r| == |Moods|
  {
    seq(|Moods|, i requires 0 <= i < |Moods| => Hits(Lower(content), EmotionKeywords[i]) as real)
  }

  /** No keyword of any mood occurs in the lower-cased text. */
  ghost predicate NoKeyword(content: string) {
    forall i :: 0 <= i < |Moods| ==> !Mentions(Lower(content), EmotionKeywords[i])
  }

  /** The counts have a positive total exactly when some keyword occurs. */
  lemma CountsPositiveIff(content: string)
    ensures Sum(KeywordCounts(content)) > 0.0 <==> !NoKeyword(content)
    ensures Sum(KeywordCounts(content)) >= 0.0
  {
    var c := KeywordCounts(content);
    KeywordsWellFormed();
    forall i | 0 <= i < |Moods|
      ensures c[i] > 0.0 <==> Mentions(Lower(content), EmotionKeywords[i])
    {
      HitsPositiveIff(Lower(content), EmotionKeywords[i]);
    }
    SumNonNegative(c);
    if !NoKeyword(content) {
      var i :| 0 <= i < |Moods| && Mentions(Lower(content), EmotionKeywords[i]);
      SumAtLeastElement(c, i);
    } else {
      SumOfZeros(c);
    }
  }

  /** A sum of non-negative numbers is at least each of them. */
  lemma {:induction false} SumAtLeastElement(s: seq<real>, i: nat)
    requires i < |s|
    requires forall k :: 0 <= k < |s| ==> s[k] >= 0.0
    ensures Sum(s) >= s[i]
    decreases |s|
  {
    var n := |s| - 1;
    SumNonNegative(s[..n]);
    if i < n {
      SumAtLeastElement(s[..n], i);
    }
  }

  /** A sum of zeros is zero. */
  lemma {:induction false} SumOfZeros(s: seq<real>)
    requires forall k :: 0 <= k < |s| ==> s[k] == 0.0
    ensures Sum(s) == 0.0
    decreases |s|
  {
    if s != [] {
      SumOfZeros(s[..|s| - 1]);
    }
  }

  /** Five scores of 20 sum to 100. */
  lemma UniformSumsTo100(s: seq<real>)
    requires |s| == |Moods|
    requires forall k :: 0 <= k < |s| ==> s[k] == UniformScore
    ensures Sum(s) == 100.0
  {
    var n := 0;
    while n < |s|
      invariant 0 <= n <= |s|
      invariant Sum(s[..n]) == n as real * UniformScore
    {
      SumPrefixStep(s, n + 1);
      n := n + 1;
    }
    assert s[..n] == s;
  }

  /**
   * The result of `simple_emotion_detection(content)`: the five labels in order;
   * when some keyword occurs, each mood's share of all keyword hits as a
   * percentage; when none occurs, exactly 20 for every mood. Either way the
   * scores are non-negative and sum to 100.
   */
  function FallbackScores(content: string): (r: Distribution)
    ensures Shaped(r)
    ensures NoKeyword(content) ==> forall i :: 0 <= i < |Moods| ==> r.scores[i] == UniformScore
    ensures !NoKeyword(content) ==>
      var counts := KeywordCounts(content);
      Sum(counts) > 0.0 &&
      forall i :: 0 <= i < |Moods| ==> r.scores[i] == counts[i] / Sum(counts) * 100.0
    ensures forall i :: 0 <= i < |Moods| ==> r.scores[i] >= 0.0
    ensures Sum(r.scores) == 100.0
  {
    var counts := KeywordCounts(content);
    var total := Sum(counts);
    CountsPositiveIff(content);
    if total > 0.0 then
      NormalizeSumsTo100(counts);
      Distribution(Moods, Normalize(counts, total))
    else
      var uniform := seq(|Moods|, i => UniformScore);
      UniformSumsTo100(uniform);
      Distribution(Moods, uniform)
  }

  /**
   * `simple_emotion_detection` as the source runs it: a dictionary of counters
   * filled by nested loops over moods and keywords, then rewritten in place.
   */
  method SimpleEmotionDetection(content: string) returns (r: Distribution)
    ensures r == FallbackScores(content)
  {
    var contentLower := Lower(content);
    var moodScores: seq<real> := [0.0, 0.0, 0.0, 0.0, 0.0];
    var i := 0;
    while i < |Moods|
      invariant 0 <= i <= |Moods| == |moodScores|
      invariant forall k :: 0 <= k < i ==> moodScores[k] == Hits(contentLower, EmotionKeywords[k]) as real
      invariant forall k :: i <= k < |Moods| ==> moodScores[k] == 0.0
    {
      var keywords := EmotionKeywords[i];
      var j := 0;
      while j < |keywords|
        invariant 0 <= j <= |keywords|
        invariant |moodScores| == |Moods|
        invariant forall k :: 0 <= k < i ==> moodScores[k] == Hits(contentLower, EmotionKeywords[k]) as real
        invariant moodScores[i] == Hits(contentLower, keywords[..j]) as real
        invariant forall k :: i < k < |Moods| ==> moodScores[k] == 0.0
      {
        assert keywords[..j + 1][..j] == keywords[..j];
        moodScores := moodScores[i := moodScores[i] + Count(contentLower, keywords[j]) as real];
        j := j + 1;
      }
      assert keywords[..j] == keywords;
      i := i + 1;
    }
    assert moodScores == KeywordCounts(content);
    var total := Sum(moodScores);
    if total > 0.0 {
      moodScores := NormalizeInPlace(moodScores, total);
    } else {
      i := 0;
      while i < |Moods|
        invariant 0 <= i <= |Moods| == |moodScores|
        invariant forall k :: 0 <= k < i ==> moodScores[k] == UniformScore
      {
        moodScores := moodScores[i := UniformScore];
        i := i + 1;
      }
    }
    r := Distribution(Moods, moodScores);
  }

  /**
   * When some keyword occurs, a mood scores above zero exactly when one of
   * its own keywords occurs in the lower-cased text.
   */
  lemma FallbackScorePositiveIff(content: string, i: nat)
    requires !NoKeyword(content) && i < |Moods|
    ensures FallbackScores(content).scores[i] > 0.0 <==> Mentions(Lower(content), EmotionKeywords[i])
  {
    var counts := KeywordCounts(content);
    CountsPositiveIff(content);
    KeywordsWellFormed();
    HitsPositiveIff(Lower(content), EmotionKeywords[i]);
    PercentagePositiveIff(counts[i], Sum(counts));
  }

  /** A non-negative share of a positive total is a positive percentage exactly when it is positive. */
  lemma PercentagePositiveIff(x: real, total: real)
    requires x >= 0.0 && total > 0.0
    ensures x / total * 100.0 > 0.0 <==> x > 0.0
  {
  }

  /** Keywords match as substrings, not words: "joyful" scores for Happy through "joy". */
  lemma JoyfulScoresHappy()
    ensures FallbackScores("joyful").scores[0] > 0.0
  {
    assert Lower("joyful") == "joyful";
    assert OccursAt("joyful", "joy", 0);
    ContainsIff("joyful", "joy");
    assert EmotionKeywords[0][1] == "joy";
    FallbackScorePositiveIff("joyful", 0);
  }

  /** "download" scores for Sad through "down". */
  lemma DownloadScoresSad()
    ensures FallbackScores("download").scores[1] > 0.0
  {
    assert Lower("download") == "download";
    assert OccursAt("download", "down", 0);
    ContainsIff("download", "down");
    assert EmotionKeywords[1][3] == "down";
    FallbackScorePositiveIff("download", 1);
  }

  /** "unhappy" scores for both Happy (through "happy") and Sad (through "unhappy"). */
  lemma UnhappyScoresHappyAndSad()
    ensures FallbackScores("unhappy").scores[0] > 0.0
    ensures FallbackScores("unhappy").scores[1] > 0.0
  {
    assert Lower("unhappy") == "unhappy";
    assert OccursAt("unhappy", "happy", 2);
    assert OccursAt("unhappy", "unhappy", 0);
    ContainsIff("unhappy", "happy");
    ContainsIff("unhappy", "unhappy");
    assert EmotionKeywords[0][0] == "happy";
    assert EmotionKeywords[1][1] == "unhappy";
    FallbackScorePositiveIff("unhappy", 0);
    FallbackScorePositiveIff("unhappy", 1);
  }
}
