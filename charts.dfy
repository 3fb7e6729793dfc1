/**
 * The aggregation inside the `chart_data` route: every stored entry of the
 * window is read back (a blob that does not parse becomes all zeros), a known
 * typed mood overrides its scores with 100 for that mood and 0 elsewhere, and
 * the entries become either one average per mood (bar mode) or one series
 * per mood with a value per entry (line mode).
 */
module Charts {
  import opened Wrappers
  import opened Scoring

  /**
   * An entry of the window as the chart reads it: its date label, its stored
   * scores (`None` when the stored text fails to parse as JSON) and the
   * entry's `typed_mood` column.
   */
  datatype StoredEntry = StoredEntry(date: string, blob: Option<Distribution>, typedMood: Option<string>)

  /** One Chart.js dataset: its `label` (here `name`) and its `data`. */
  datatype Dataset = Dataset(name: string, data: seq<real>)

  /** The JSON the route returns, without colours and other decoration. */
  datatype ChartData = ChartData(labels: seq<string>, datasets: seq<Dataset>)

  /** The title of the single dataset of a bar chart. */
  const BarTitle: string := "Average Mood Score (%)"

  /** The scores of the record substituted for a blob that does not parse. */
  const ZeroScores: seq<real> := [0.0, 0.0, 0.0, 0.0, 0.0]

  /** The stored scores, or `{labels: moods, scores: [0]*5}` when they do not parse. */
  function Parsed(e: StoredEntry): Distribution {
    match e.blob
    case Some(d) => d
    case None => Distribution(Moods, ZeroScores)
  }

  /** `[100 if label == typed_mood else 0 for label in labels]`. */
  function OneHot(labels: seq<string>, typedMood: string): seq<real> {
    seq(|labels|, i requires 0 <= i < |labels| => if labels[i] == typedMood then 100.0 else 0.0)
  }

  /** The scores the chart uses: the stored ones, overridden when the typed mood is one of the five moods. */
  function Effective(e: StoredEntry): (r: Distribution)
    ensures r.labels == Parsed(e).labels
    ensures e.typedMood.Some? && e.typedMood.value in Moods ==> |r.scores| == |r.labels|
    ensures !(e.typedMood.Some? && e.typedMood.value in Moods) ==> r == Parsed(e)
  {
    var d := Parsed(e);
    if e.typedMood.Some? && e.typedMood.value in Moods then Distribution(d.labels, OneHot(d.labels, e.typedMood.value))
    else d
  }

  /** `labels.index(mood) if mood in labels`: the first position of `mood`, if any. */
  function IndexOf(labels: seq<string>, mood: string): (r: Option<nat>)
    ensures r.None? <==> mood !in labels
    ensures r.Some? ==> r.value < |labels| && labels[r.value] == mood && mood !in labels[..r.value]
  {
    if labels == [] then None
    else if labels[0] == mood then Some(0)
    else match IndexOf(labels[1..], mood)
      case None => None
      case Some(i) =>
        assert labels[..i + 1] == [labels[0]] + labels[1..][..i];
        Some(i + 1)
  }

  /**
   * The score the chart reads for `mood`: 0 when the labels do not hold it,
   * the score at its first position otherwise, and `None` when that position
   * is past the end of the scores (the `IndexError` that fails the request).
   */
  function Lookup(d: Distribution, mood: string): (r: Option<real>)
    ensures mood !in d.labels ==> r == Some(0.0)
    ensures r.None? ==> mood in d.labels && |d.scores| < |d.labels|
  {
    match IndexOf(d.labels, mood)
    case None => Some(0.0)
    case Some(i) => if i < |d.scores| then Some(d.scores[i]) else None
  }

  /** A mood the labels do not hold reads as 0. */
  lemma LookupMissing(d: Distribution, mood: string)
    requires mood !in d.labels
    ensures Lookup(d, mood) == Some(0.0)
  {
  }

  /** A mood the labels hold reads as the score at its first position, if there is one. */
  lemma LookupFirstIndex(d: Distribution, mood: string, i: nat)
    requires i < |d.labels| && d.labels[i] == mood && mood !in d.labels[..i]
    ensures Lookup(d, mood) == if i < |d.scores| then Some(d.scores[i]) else None
  {
  }

  /** Every mood of every entry reads without an `IndexError`. */
  predicate Readable(entries: seq<StoredEntry>) {
    forall q, j :: 0 <= q < |entries| && 0 <= j < |Moods| ==> Lookup(Effective(entries[q]), Moods[j]).Some?
  }

  /** The values mood `j` takes over the entries, in their order. */
  function Column(entries: seq<StoredEntry>, j: nat): seq<real>
    requires Readable(entries) && j < |Moods|
  {
    seq(|entries|, q requires 0 <= q < |entries| => Lookup(Effective(entries[q]), Moods[j]).value)
  }

  /** `sum(xs) / len(xs) if xs else 0`. */
  function Mean(xs: seq<real>): (r: real)
    ensures |xs| == 0 ==> r == 0.0
    ensures |xs| > 0 ==> r * |xs| as real == Sum(xs)
  {
    if |xs| == 0 then 0.0 else Sum(xs) / |xs| as real
  }

  /** The x-axis labels of a line chart, one per entry. */
  function Dates(entries: seq<StoredEntry>): seq<string> {
    seq(|entries|, q requires 0 <= q < |entries| => entries[q].date)
  }

  /** The bar chart: the average score of each mood over the window, or `None` when a lookup fails. */
  function BarChart(entries: seq<StoredEntry>): (r: Option<ChartData>)
    ensures r.Some? <==> Readable(entries)
    ensures r.Some? ==> r.value.labels == Moods && |r.value.datasets| == 1 && |r.value.datasets[0].data| == |Moods|
  {
    if Readable(entries) then
      Some(ChartData(Moods, [Dataset(BarTitle, seq(|Moods|, j requires 0 <= j < |Moods| => Mean(Column(entries, j))))]))
    else None
  }

  /** The line chart: one series per mood with one value per entry, or `None` when a lookup fails. */
  function LineChart(entries: seq<StoredEntry>): (r: Option<ChartData>)
    ensures r.Some? <==> Readable(entries)
    ensures r.Some? ==> |r.value.labels| == |entries| && |r.value.datasets| == |Moods|
  {
    if Readable(entries) then
      Some(ChartData(Dates(entries), seq(|Moods|, j requires 0 <= j < |Moods| => Dataset(Moods[j], Column(entries, j)))))
    else None
  }

  /** `type=bar` selects the bar chart; every other value selects the line chart. */
  function ChartFor(chartType: string, entries: seq<StoredEntry>): Option<ChartData> {
    if chartType == "bar" then BarChart(entries) else LineChart(entries)
  }

  /**
   * The inner loop of bar mode for one entry: each mood's score appended to
   * that mood's list, or `None` as soon as a lookup fails.
   */
  method AppendScores(moodTotals: seq<seq<real>>, moodScores: Distribution) returns (r: Option<seq<seq<real>>>)
    requires |moodTotals| == |Moods|
    ensures r.None? <==> exists j :: 0 <= j < |Moods| && Lookup(moodScores, Moods[j]).None?
    ensures r.Some? ==> (|r.value| == |Moods| &&
      forall j :: 0 <= j < |Moods| ==> r.value[j] == moodTotals[j] + [Lookup(moodScores, Moods[j]).value])
  {
    var totals := moodTotals;
    var j := 0;
    while j < |Moods|
      invariant 0 <= j <= |Moods| == |totals|
      invariant forall h :: 0 <= h < j ==> Lookup(moodScores, Moods[h]).Some? && totals[h] == moodTotals[h] + [Lookup(moodScores, Moods[h]).value]
      invariant forall h :: j <= h < |Moods| ==> totals[h] == moodTotals[h]
    {
      var score := Lookup(moodScores, Moods[j]);
      if score.None? {
        return None;
      }
      totals := totals[j := totals[j] + [score.value]];
      j := j + 1;
    }
    r := Some(totals);
  }

  /**
   * Bar mode as the source runs it: `mood_totals[mood].append(score)` for each
   * entry and mood, then the averages.
   */
  method BarChartData(entries: seq<StoredEntry>) returns (r: Option<ChartData>)
    ensures r == BarChart(entries)
  {
    var moodTotals: seq<seq<real>> := [[], [], [], [], []];
    var k := 0;
    while k < |entries|
      invariant 0 <= k <= |entries|
      invariant |moodTotals| == |Moods|
      invariant forall j :: 0 <= j < |Moods| ==> |moodTotals[j]| == k
      invariant forall q, j :: 0 <= q < k && 0 <= j < |Moods| ==> Lookup(Effective(entries[q]), Moods[j]) == Some(moodTotals[j][q])
    {
      var appended := AppendScores(moodTotals, Effective(entries[k]));
      if appended.None? {
        var j :| 0 <= j < |Moods| && Lookup(Effective(entries[k]), Moods[j]).None?;
        assert !Readable(entries);
        return None;
      }
      moodTotals := appended.value;
      k := k + 1;
    }
    forall q, j | 0 <= q < |entries| && 0 <= j < |Moods| ensures Lookup(Effective(entries[q]), Moods[j]).Some? {
    }
    assert Readable(entries);
    forall j | 0 <= j < |Moods| ensures moodTotals[j] == Column(entries, j) {
    }
    var moodAverages := seq(|Moods|, j requires 0 <= j < |Moods| => Mean(moodTotals[j]));
    assert moodAverages == seq(|Moods|, j requires 0 <= j < |Moods| => Mean(Column(entries, j)));
    r := Some(ChartData(Moods, [Dataset(BarTitle, moodAverages)]));
  }

  /**
   * Line mode as the source runs it: for each mood, a list built by appending
   * that mood's score of every entry, appended as a dataset.
   */
  method LineChartData(entries: seq<StoredEntry>) returns (r: Option<ChartData>)
    ensures r == LineChart(entries)
  {
    var datasets: seq<Dataset> := [];
    var j := 0;
    while j < |Moods|
      invariant 0 <= j <= |Moods|
      invariant |datasets| == j
      invariant forall h :: 0 <= h < j ==> datasets[h].name == Moods[h] && |datasets[h].data| == |entries|
      invariant forall h, q :: 0 <= h < j && 0 <= q < |entries| ==> Lookup(Effective(entries[q]), Moods[h]) == Some(datasets[h].data[q])
    {
      var moodData: seq<real> := [];
      var q := 0;
      while q < |entries|
        invariant 0 <= q <= |entries|
        invariant |moodData| == q
        invariant forall p :: 0 <= p < q ==> Lookup(Effective(entries[p]), Moods[j]) == Some(moodData[p])
      {
        var score := Lookup(Effective(entries[q]), Moods[j]);
        if score.None? {
          assert !Readable(entries);
          return None;
        }
        moodData := moodData + [score.value];
        q := q + 1;
      }
      datasets := datasets + [Dataset(Moods[j], moodData)];
      j := j + 1;
    }
    assert Readable(entries);
    forall h | 0 <= h < |Moods| ensures datasets[h] == Dataset(Moods[h], Column(entries, h)) {
    }
    assert datasets == seq(|Moods|, h requires 0 <= h < |Moods| => Dataset(Moods[h], Column(entries, h)));
    r := Some(ChartData(Dates(entries), datasets));
  }

  /** The aggregation of `chart_data` for the requested chart type. */
  method BuildChartData(chartType: string, entries: seq<StoredEntry>) returns (r: Option<ChartData>)
    ensures r == ChartFor(chartType, entries)
  {
    if chartType == "bar" {
      r := BarChartData(entries);
    } else {
      r := LineChartData(entries);
    }
  }

  /**
   * A typed mood that is one of the five overrides the stored scores: every
   * mood reads 100 if it is the typed mood and the labels hold it, 0 otherwise.
   */
  lemma OneHotOverride(e: StoredEntry, j: nat)
    requires e.typedMood.Some? && e.typedMood.value in Moods && j < |Moods|
    ensures |Effective(e).scores| == |Effective(e).labels| == |Parsed(e).labels|
    ensures Lookup(Effective(e), Moods[j]) ==
      Some(if Moods[j] == e.typedMood.value && Moods[j] in Parsed(e).labels then 100.0 else 0.0)
  {
    var d := Effective(e);
    var m := Moods[j];
    if m in d.labels {
      var i := IndexOf(d.labels, m).value;
      LookupFirstIndex(d, m, i);
    } else {
      LookupMissing(d, m);
    }
  }

  /** With the five labels stored in order, the override is exactly one-hot. */
  lemma OneHotOverrideShaped(e: StoredEntry, j: nat)
    requires e.typedMood.Some? && e.typedMood.value in Moods && j < |Moods|
    requires Parsed(e).labels == Moods
    ensures Lookup(Effective(e), Moods[j]) == Some(if Moods[j] == e.typedMood.value then 100.0 else 0.0)
  {
    OneHotOverride(e, j);
  }

  /** Without a known typed mood, a blob that fails to parse reads as 0 for every mood. */
  lemma UnparsedReadsZero(e: StoredEntry, j: nat)
    requires e.blob.None? && !(e.typedMood.Some? && e.typedMood.value in Moods) && j < |Moods|
    ensures Lookup(Effective(e), Moods[j]) == Some(0.0)
  {
    LookupFirstIndex(Effective(e), Moods[j], j);
  }

  /** An entry whose scores are stored as five percentages in mood order, or that fails to parse. */
  predicate WellStored(e: StoredEntry) {
    e.blob.None? ||
    (Shaped(e.blob.value) && forall i :: 0 <= i < |Moods| ==> 0.0 <= e.blob.value.scores[i] <= 100.0)
  }

  /** A well-stored entry reads a percentage for every mood. */
  lemma WellStoredReadsPercentage(e: StoredEntry, j: nat)
    requires WellStored(e) && j < |Moods|
    ensures Lookup(Effective(e), Moods[j]).Some?
    ensures 0.0 <= Lookup(Effective(e), Moods[j]).value <= 100.0
  {
    if e.typedMood.Some? && e.typedMood.value in Moods {
      OneHotOverride(e, j);
    } else {
      LookupFirstIndex(Effective(e), Moods[j], j);
    }
  }

  /** A mean of values within bounds stays within them; an empty mean is 0. */
  lemma MeanWithin(xs: seq<real>, lo: real, hi: real)
    requires forall i :: 0 <= i < |xs| ==> lo <= xs[i] <= hi
    requires lo <= 0.0 <= hi || |xs| > 0
    ensures lo <= Mean(xs) <= hi
  {
    if |xs| > 0 {
      SumWithin(xs, lo, hi);
      var n := |xs| as real;
      assert lo * n / n == lo && hi * n / n == hi;
      DivideMonotone(lo * n, Sum(xs), n);
      DivideMonotone(Sum(xs), hi * n, n);
    }
  }

  /** Dividing by a positive number keeps order. */
  lemma DivideMonotone(x: real, y: real, n: real)
    requires x <= y && n > 0.0
    ensures x / n <= y / n
  {
  }

  /** The sum of `n` values within bounds lies between `n * lo` and `n * hi`. */
  lemma {:induction false} SumWithin(xs: seq<real>, lo: real, hi: real)
    requires forall i :: 0 <= i < |xs| ==> lo <= xs[i] <= hi
    ensures |xs| as real * lo <= Sum(xs) <= |xs| as real * hi
    decreases |xs|
  {
    if xs != [] {
      SumWithin(xs[..|xs| - 1], lo, hi);
    }
  }

  /** The mean of `n > 0` copies of one value is that value. */
  lemma MeanOfConstant(xs: seq<real>, c: real)
    requires |xs| > 0 && forall i :: 0 <= i < |xs| ==> xs[i] == c
    ensures Mean(xs) == c
  {
    SumWithin(xs, c, c);
    var n := |xs| as real;
    assert Sum(xs) == n * c;
    assert n * c / n == c;
  }

  /** In bar mode an empty window gives 0 for every mood rather than a division by zero. */
  lemma BarEmptyWindow()
    ensures BarChart([]) == Some(ChartData(Moods, [Dataset(BarTitle, ZeroScores)]))
  {
    assert Readable([]);
    assert seq(|Moods|, j requires 0 <= j < |Moods| => Mean(Column([], j))) == ZeroScores;
  }

  /**
   * Bar mode over well-stored entries never fails and gives, for each mood in
   * order, an average that is a percentage.
   */
  lemma BarAveragesArePercentages(entries: seq<StoredEntry>)
    requires forall q :: 0 <= q < |entries| ==> WellStored(entries[q])
    ensures BarChart(entries).Some?
    ensures BarChart(entries).value.labels == Moods && |BarChart(entries).value.datasets| == 1
    ensures var avgs := BarChart(entries).value.datasets[0].data;
      |avgs| == |Moods| && forall j :: 0 <= j < |Moods| ==> 0.0 <= avgs[j] <= 100.0
  {
    forall q, j | 0 <= q < |entries| && 0 <= j < |Moods|
      ensures Lookup(Effective(entries[q]), Moods[j]).Some?
      ensures 0.0 <= Lookup(Effective(entries[q]), Moods[j]).value <= 100.0
    {
      WellStoredReadsPercentage(entries[q], j);
    }
    assert Readable(entries);
    forall j | 0 <= j < |Moods| ensures 0.0 <= Mean(Column(entries, j)) <= 100.0 {
      MeanWithin(Column(entries, j), 0.0, 100.0);
    }
  }

  /**
   * A non-empty window whose entries all carry the typed mood `Moods[t]` over
   * the five stored labels averages to 100 for that mood and 0 for the rest,
   * whatever the stored scores are.
   */
  lemma BarTypedWindow(entries: seq<StoredEntry>, t: nat)
    requires |entries| > 0 && t < |Moods|
    requires forall q :: 0 <= q < |entries| ==> entries[q].typedMood == Some(Moods[t]) && Parsed(entries[q]).labels == Moods
    ensures BarChart(entries) ==
      Some(ChartData(Moods, [Dataset(BarTitle, seq(|Moods|, j requires 0 <= j < |Moods| => if j == t then 100.0 else 0.0))]))
  {
    forall q, j | 0 <= q < |entries| && 0 <= j < |Moods|
      ensures Lookup(Effective(entries[q]), Moods[j]) == Some(if j == t then 100.0 else 0.0)
    {
      OneHotOverrideShaped(entries[q], j);
    }
    assert Readable(entries);
    forall j | 0 <= j < |Moods| ensures Mean(Column(entries, j)) == if j == t then 100.0 else 0.0 {
      MeanOfConstant(Column(entries, j), if j == t then 100.0 else 0.0);
    }
    assert seq(|Moods|, j requires 0 <= j < |Moods| => Mean(Column(entries, j))) ==
      seq(|Moods|, j requires 0 <= j < |Moods| => if j == t then 100.0 else 0.0);
  }

  /**
   * Line mode over readable entries gives one series per mood, in mood order,
   * each holding that mood's (possibly overridden) score of every entry, in order.
   */
  lemma LineSeriesShape(entries: seq<StoredEntry>)
    requires Readable(entries)
    ensures LineChart(entries).Some?
    ensures var c := LineChart(entries).value;
      c.labels == Dates(entries) && |c.datasets| == |Moods| &&
      forall j :: 0 <= j < |Moods| ==>
        c.datasets[j].name == Moods[j] && |c.datasets[j].data| == |entries| &&
        forall q :: 0 <= q < |entries| ==> Some(c.datasets[j].data[q]) == Lookup(Effective(entries[q]), Moods[j])
  {
  }

  /** Both modes fail on exactly the same windows: those with an entry that cannot be read. */
  lemma ModesFailTogether(entries: seq<StoredEntry>)
    ensures BarChart(entries).None? <==> LineChart(entries).None?
    ensures BarChart(entries).None? <==>
      exists q, j :: 0 <= q < |entries| && 0 <= j < |Moods| && Lookup(Effective(entries[q]), Moods[j]).None?
  {
  }
}
