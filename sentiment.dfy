/**
 * `analyze_sentiment`: the typed-mood scan, the folding of the classifier's
 * fine-grained labels into the five mood buckets, normalisation, and the two
 * ways of falling back to the keyword scorer.
 */
module Sentiment {
  import opened Wrappers
  import opened Text
  import opened Scoring
  import opened Fallback

  /** The classifier labels that feed each mood bucket, in the order of `Moods`. */
  const EmotionGroups: seq<seq<string>> := [
    ["joy", "amusement", "excitement", "optimism", "pride", "gratitude", "admiration", "approval", "caring", "love"],
    ["sadness", "grief", "disappointment", "remorse"],
    ["anger", "annoyance", "disapproval", "disgust"],
    ["neutral", "relief", "realization"],
    ["fear", "nervousness", "confusion", "curiosity", "desire", "embarrassment", "surprise"]
  ]

  /** One element of the classifier's answer: its `label` (here `labelText`, since `label` is a Dafny keyword) and `score` keys; a missing key reads as `''` or `0`. */
  datatype Item = Item(labelText: Option<string>, score: Option<real>)

  /**
   * What the HTTP call to the classifier turned out to be: it raised (no
   * connection, a body that is not JSON, elements that are not objects), or
   * it produced a list of label/score elements.
   */
  datatype ClassifierResponse = Raised | Items(items: seq<Item>)

  /** The record `analyze_sentiment` returns and an entry stores. */
  datatype MoodRecord = MoodRecord(dist: Distribution, typedMood: Option<string>)

  /** `mood.lower() in content.lower()` for the mood at position `j`. */
  predicate Typed(content: string, j: nat)
    requires j < |Moods|
  {
    Contains(Lower(content), Lower(Moods[j]))
  }

  /** The scan from position `i` on. */
  function TypedMoodFrom(content: string, i: nat): (r: Option<string>)
    requires i <= |Moods|
    ensures r.None? <==> forall j :: i <= j < |Moods| ==> !Typed(content, j)
    ensures r.Some? ==>
      exists j :: i <= j < |Moods| && r.value == Moods[j] && Typed(content, j) &&
        forall k :: i <= k < j ==> !Typed(content, k)
    decreases |Moods| - i
  {
    if i == |Moods| then None
    else if Typed(content, i) then Some(Moods[i])
    else TypedMoodFrom(content, i + 1)
  }

  /**
   * The typed mood: the first mood, in the order of `Moods`, whose lower-cased
   * name occurs in the lower-cased text, or none when no mood name occurs.
   */
  function TypedMood(content: string): (r: Option<string>)
    ensures r.None? <==> forall j :: 0 <= j < |Moods| ==> !Typed(content, j)
    ensures r.Some? ==>
      exists j :: 0 <= j < |Moods| && r.value == Moods[j] && Typed(content, j) &&
        forall k :: 0 <= k < j ==> !Typed(content, k)
  {
    TypedMoodFrom(content, 0)
  }

  /** The scan as the source writes it: a loop over the moods that stops at the first match. */
  method DetectTypedMood(content: string) returns (typedMood: Option<string>)
    ensures typedMood == TypedMood(content)
  {
    var contentLower := Lower(content);
    typedMood := None;
    var i := 0;
    while i < |Moods|
      invariant 0 <= i <= |Moods|
      invariant TypedMoodFrom(content, i) == TypedMood(content)
    {
      if Contains(contentLower, Lower(Moods[i])) {
        typedMood := Some(Moods[i]);
        break;
      }
      i := i + 1;
    }
  }

  /** `item.get('label', '').lower()`. */
  function LabelOf(item: Item): string {
    Lower(item.labelText.GetOr(""))
  }

  /** `item.get('score', 0)`. */
  function ScoreOf(item: Item): real {
    item.score.GetOr(0.0)
  }

  /** The total score the elements contribute to bucket `g`. */
  function BucketTotal(items: seq<Item>, g: nat): real
    requires g < |EmotionGroups|
  {
    if items == [] then 0.0
    else
      var last := items[|items| - 1];
      BucketTotal(items[..|items| - 1], g) + (if LabelOf(last) in EmotionGroups[g] then ScoreOf(last) else 0.0)
  }

  /** The five bucket totals, in the order of `Moods`. */
  function Buckets(items: seq<Item>): (r: seq<real>)
    ensures |r| == |Moods|
  {
    seq(|Moods|, g requires 0 <= g < |Moods| => BucketTotal(items, g))
  }

  /** No classifier label belongs to two buckets. */
  lemma GroupsDisjoint()
    ensures |EmotionGroups| == |Moods|
    ensures forall g, h, l :: 0 <= g < h < |EmotionGroups| && l in EmotionGroups[g] ==> l !in EmotionGroups[h]
  {
  }

  /** One more element adds its score to every bucket whose list holds its label, and to no other. */
  lemma BucketStep(items: seq<Item>, item: Item, g: nat)
    requires g < |EmotionGroups|
    ensures BucketTotal(items + [item], g) ==
      BucketTotal(items, g) + (if LabelOf(item) in EmotionGroups[g] then ScoreOf(item) else 0.0)
  {
    assert (items + [item])[..|items|] == items;
  }

  /** An element whose label is in no bucket's list leaves all five totals as they were. */
  lemma UnknownLabelIgnored(items: seq<Item>, item: Item)
    requires forall g :: 0 <= g < |EmotionGroups| ==> LabelOf(item) !in EmotionGroups[g]
    ensures Buckets(items + [item]) == Buckets(items)
  {
    forall g | 0 <= g < |Moods| ensures Buckets(items + [item])[g] == Buckets(items)[g] {
      BucketStep(items, item, g);
    }
  }

  /** An element whose label is in bucket `g`'s list adds its score to bucket `g` and to no other. */
  lemma KnownLabelOneBucket(items: seq<Item>, item: Item, g: nat)
    requires g < |EmotionGroups| && LabelOf(item) in EmotionGroups[g]
    ensures Buckets(items + [item]) == Buckets(items)[g := Buckets(items)[g] + ScoreOf(item)]
  {
    GroupsDisjoint();
    forall h | 0 <= h < |Moods|
      ensures Buckets(items + [item])[h] == Buckets(items)[g := Buckets(items)[g] + ScoreOf(item)][h]
    {
      BucketStep(items, item, h);
      if h < g {
        assert LabelOf(item) !in EmotionGroups[h];
      } else if h > g {
        assert LabelOf(item) !in EmotionGroups[h];
      }
    }
  }

  /**
   * `analyze_sentiment(content)` given what the classifier call produced. The
   * result always has the five labels in order and scores that sum to 100.
   */
  function Classify(content: string, response: ClassifierResponse): (r: MoodRecord)
    ensures Shaped(r.dist)
    ensures Sum(r.dist.scores) == 100.0
  {
    match response
    case Raised => MoodRecord(FallbackScores(content), None)
    case Items(items) =>
      var buckets := Buckets(items);
      var total := Sum(buckets);
      if total > 0.0 then
        NormalizeSumsTo100(buckets);
        MoodRecord(Distribution(Moods, Normalize(buckets, total)), TypedMood(content))
      else
        MoodRecord(FallbackScores(content), TypedMood(content))
  }

  /**
   * The loop of `analyze_sentiment` over the classifier's elements and, inside
   * it, over the buckets: `mood_scores[mood] += score` for each bucket whose
   * list holds the element's label.
   */
  method SumBuckets(items: seq<Item>) returns (moodScores: seq<real>)
    ensures moodScores == Buckets(items)
  {
    moodScores := [0.0, 0.0, 0.0, 0.0, 0.0];
    var n := 0;
    while n < |items|
      invariant 0 <= n <= |items|
      invariant |moodScores| == |Moods|
      invariant forall g :: 0 <= g < |Moods| ==> moodScores[g] == BucketTotal(items[..n], g)
    {
      var itemLabel := LabelOf(items[n]);
      var score := ScoreOf(items[n]);
      assert items[..n + 1] == items[..n] + [items[n]];
      var g := 0;
      while g < |Moods|
        invariant 0 <= g <= |Moods| == |moodScores|
        invariant forall h :: 0 <= h < g ==> moodScores[h] == BucketTotal(items[..n + 1], h)
        invariant forall h :: g <= h < |Moods| ==> moodScores[h] == BucketTotal(items[..n], h)
      {
        BucketStep(items[..n], items[n], g);
        if itemLabel in EmotionGroups[g] {
          moodScores := moodScores[g := moodScores[g] + score];
        }
        g := g + 1;
      }
      n := n + 1;
    }
    assert items[..n] == items;
    assert moodScores == Buckets(items);
  }

  /**
   * `analyze_sentiment` as the source runs it: the typed-mood scan, a dictionary
   * of bucket totals filled by a loop over the elements and, inside it, over
   * the buckets, then normalised in place; the fallback keyword scorer when
   * the total is not positive (keeping the typed mood) or when the call
   * raised (dropping it).
   */
  method AnalyzeSentiment(content: string, response: ClassifierResponse) returns (r: MoodRecord)
    ensures response.Raised? ==> r == MoodRecord(FallbackScores(content), None)
    ensures response.Items? && Sum(Buckets(response.items)) > 0.0 ==>
      r.typedMood == TypedMood(content) &&
      r.dist.scores == Normalize(Buckets(response.items), Sum(Buckets(response.items)))
    ensures response.Items? && Sum(Buckets(response.items)) <= 0.0 ==>
      r == MoodRecord(FallbackScores(content), TypedMood(content))
    ensures r == Classify(content, response)
    ensures Shaped(r.dist) && Sum(r.dist.scores) == 100.0
  {
    var typedMood := DetectTypedMood(content);
    if response.Raised? {
      var result := SimpleEmotionDetection(content);
      return MoodRecord(result, None);
    }
    var moodScores := SumBuckets(response.items);
    var total := Sum(moodScores);
    if total > 0.0 {
      moodScores := NormalizeInPlace(moodScores, total);
      r := MoodRecord(Distribution(Moods, moodScores), typedMood);
    } else {
      var result := SimpleEmotionDetection(content);
      r := MoodRecord(result, typedMood);
    }
  }

  /** When every classifier score is non-negative, so is every score of the result. */
  lemma ClassifyNonNegative(content: string, response: ClassifierResponse)
    requires response.Items? ==> forall k :: 0 <= k < |response.items| ==> ScoreOf(response.items[k]) >= 0.0
    ensures forall i :: 0 <= i < |Moods| ==> Classify(content, response).dist.scores[i] >= 0.0
  {
    if response.Items? {
      var buckets := Buckets(response.items);
      var total := Sum(buckets);
      forall g | 0 <= g < |Moods| ensures buckets[g] >= 0.0 {
        BucketTotalNonNegative(response.items, g);
      }
      if total > 0.0 {
        forall i | 0 <= i < |Moods| ensures Normalize(buckets, total)[i] >= 0.0 {
          PercentageNonNegative(buckets[i], total);
        }
      }
    }
  }

  /** A non-negative share of a positive total is a non-negative percentage. */
  lemma PercentageNonNegative(x: real, total: real)
    requires x >= 0.0 && total > 0.0
    ensures x / total * 100.0 >= 0.0
  {
  }

  /** Bucket totals of non-negative scores are non-negative. */
  lemma {:induction false} BucketTotalNonNegative(items: seq<Item>, g: nat)
    requires g < |EmotionGroups|
    requires forall k :: 0 <= k < |items| ==> ScoreOf(items[k]) >= 0.0
    ensures BucketTotal(items, g) >= 0.0
    decreases |items|
  {
    if items != [] {
      BucketTotalNonNegative(items[..|items| - 1], g);
    }
  }

  /**
   * The two fallback paths differ: for the text "happy", a classifier answer
   * with no usable label keeps the typed mood Happy, while a raised call drops it.
   */
  lemma FallbackPathsDiffer()
    ensures Classify("happy", Items([])).typedMood == Some("Happy")
    ensures Classify("happy", Raised).typedMood == None
    ensures Classify("happy", Items([])).dist == Classify("happy", Raised).dist
  {
    assert Lower("Happy") == "happy";
    assert Lower("happy") == "happy";
    assert Typed("happy", 0);
    assert Buckets([]) == [0.0, 0.0, 0.0, 0.0, 0.0];
    SumOfZeros(Buckets([]));
  }

  /** The scan matches substrings: "unhappy" makes Happy the typed mood. */
  lemma UnhappyTypesHappy()
    ensures TypedMood("unhappy") == Some("Happy")
  {
    assert Lower("Happy") == "happy";
    assert Lower("unhappy") == "unhappy";
    assert "unhappy"[2..] == "happy";
    assert Contains("unhappy"[2..], "happy");
    assert Contains("unhappy"[1..], "happy");
    assert Typed("unhappy", 0);
  }
}
