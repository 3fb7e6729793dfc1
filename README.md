# Mood journal: a Dafny model of the mood-scoring pipeline

This project models the part of the mood journal web application that holds logic of its own. The rest is Flask and SQLAlchemy glue. The model covers:

- **analyze_sentiment** (`sentiment.dfy`). When an entry is written, the text is scanned for a mood name typed literally (the *typed mood*). An external classifier's fine-grained labels are folded into the five buckets Happy, Sad, Angry, Calm and Anxious. The bucket totals are normalised to percentages. There are two fallbacks to the local keyword scorer. If the bucket total is not positive, the typed mood is kept. If the classifier call raised, the typed mood is dropped.
- **simple_emotion_detection** (`fallback.dfy`). This is the local keyword scorer. It counts non-overlapping keyword occurrences per mood in the lower-cased text, the way `str.count` does. It normalises the counts to percentages, or gives exactly 20 to every mood when no keyword occurs.
- **chart_data** (`charts.dfy`). This is the chart aggregation. A stored record that does not parse reads as all zeros. A typed mood that is one of the five overrides the stored scores with 100 for that mood and 0 for the others. A mood is looked up by its first position in the stored labels and reads 0 when absent. Bar mode gives one average per mood, 0 for an empty window. Line mode gives one series per mood, with one value per entry.
- **The routes `journal`, `history`, `chart`, `edit_entry` and `delete_entry`** (`journal.dfy`). These are modelled as transitions over the entries table, a map from id to entry: the free-tier gate (blocked when not premium and at least 5 entries), entry creation, and the owner checks on edit and delete.
- **User.is_premium_active** (`accounts.dfy`). This is a state machine over `is_premium` and `premium_expiry`. An expired premium is demoted as a side effect of reading it. The payment callback sets premium for 30 days.

`text.dfy` holds the string primitives (`lower`, `in`, `str.count`). `scoring.dfy` holds the shared mood order, sum and normalisation.

The loops that build the `mood_scores` dictionaries and the chart lists are `method`s with `while` loops. Each is proved equal to a specification function: `SimpleEmotionDetection`, `DetectTypedMood`, `SumBuckets`, `NormalizeInPlace`, `AnalyzeSentiment`, `BarChartData`, `LineChartData`. The properties are proved as lemmas about those functions. `User` is a class whose methods change its two fields (`modifies this`). Its transitions are tied to the pure function `CheckPremium`, and the lemmas are stated over that function.

External inputs are parameters:
- the classifier's answer is a `ClassifierResponse` (`Raised`, or the list of label/score items);
- the parse of a stored blob is an `Option`;
- the clock is an integer `now`, in seconds;
- the id the database assigns to a new entry is a parameter;
- the date label of a chart point is an opaque string;
- the gated routes take the answer of `is_premium_active()` as a boolean `premiumActive`. The demotion that call makes while gating (app.py:168, 193, 236) is stated by `Accounts.User.IsPremiumActive` and not carried through the `Journal` routes.

Behaviour of the code worth noting:
- The keyword `joy` is in the Happy list (app.py:89), so "joyful" scores for Happy (`Fallback.JoyfulScoresHappy`).
- The exception path sets `typed_mood` to `None` (app.py:83), while the zero-total path keeps it (app.py:71). `Sentiment.FallbackPathsDiffer` shows the difference for the text "happy": both paths give the same fallback scores, but only the zero-total path keeps Happy as the typed mood.
- In `chart_data`, a mood found in the stored labels is read at its first position (app.py:281-282). When that position is at or past the end of the stored scores, on an entry without a known typed mood, the read raises `IndexError` and fails the request. A scores list shorter than its labels is not enough by itself: labels `["Happy", "Foo"]` with scores `[1.0]` chart without error. `Charts.Lookup` models the failing read as `None`, and the chart functions then return `None`.
- The `chart` page is behind the free-tier gate, but the `chart-data` endpoint it loads is not (app.py:243-245). The model follows this: the chart aggregation takes no gate.

## Model

| member | source | states |
|---|---|---|
| Text.Lower | app.py:46 | lower-casing keeps the length and maps each character |
| Text.Contains | app.py:49 | the empty needle is always in the text, and a needle found is no longer than the text; `Text.ContainsIff` states the full meaning |
| Text.ContainsIff | app.py:49 | the `in` test holds exactly when the needle occurs at some position of the text |
| Text.Count | app.py:99 | an empty keyword counts once more than the text length, any other at most the text length; `Text.CountPositiveIff` and `Text.CountBound` state the rest |
| Text.CountPositiveIff | app.py:99 | `str.count` of a non-empty keyword is positive exactly when the keyword occurs |
| Text.CountBound | app.py:99 | the counted occurrences do not overlap: count times keyword length is at most the text length |
| Scoring.SumNormalize | app.py:67-68 | normalising each score by a total scales their sum by 100 / total |
| Scoring.NormalizeSumsTo100 | app.py:65-68 | scores normalised by their positive total sum to exactly 100 |
| Scoring.NormalizeInPlace | app.py:103-104 | the in-place normalisation loop yields every score divided by the total, times 100 |
| Fallback.KeywordsWellFormed | app.py:88-94 | there is one keyword list per mood and no keyword is empty (the lists' order is the data of `Fallback.EmotionKeywords`) |
| Fallback.Hits | app.py:98-99 | no contract of its own: the sum of `str.count` over one mood's keywords; `Fallback.HitsPositiveIff` states when it is positive |
| Fallback.HitsPositiveIff | app.py:97-99 | a mood's summed keyword counts are positive exactly when one of its keywords occurs |
| Fallback.KeywordCounts | app.py:96-99 | one count per mood, in mood order; `Fallback.CountsPositiveIff` and `Fallback.FallbackScorePositiveIff` state what the counts mean |
| Fallback.CountsPositiveIff | app.py:101-102 | the total of all counts is non-negative, and positive exactly when some keyword occurs |
| Fallback.UniformSumsTo100 | app.py:105-107 | five scores of 20 sum to 100 |
| Fallback.FallbackScores | app.py:86-112 | labels are the five moods in order, with five non-negative scores summing to 100; with no keyword, every score is exactly 20; otherwise each score is its mood's count over the total, times 100 |
| Fallback.SimpleEmotionDetection | app.py:86-112 | the nested counting loops and in-place rewrites compute exactly `FallbackScores` |
| Fallback.FallbackScorePositiveIff | app.py:96-104 | when some keyword occurs, a mood scores above 0 exactly when one of its own keywords occurs |
| Fallback.JoyfulScoresHappy | app.py:89 | "joyful" gives Happy a positive score, through "joy" |
| Fallback.DownloadScoresSad | app.py:90 | "download" gives Sad a positive score, through "down" |
| Fallback.UnhappyScoresHappyAndSad | app.py:89-90 | "unhappy" gives both Happy and Sad a positive score |
| Sentiment.TypedMoodFrom | app.py:48-51 | the scan from a mood position on finds the first later mood whose lowercase name occurs, or none when none does |
| Sentiment.TypedMood | app.py:46-51 | the typed mood is the first mood in the fixed order whose lowercase name occurs in the lowercased text, or none exactly when no mood name occurs |
| Sentiment.DetectTypedMood | app.py:46-51 | the loop with `break` computes exactly `TypedMood` |
| Sentiment.UnhappyTypesHappy | app.py:46-51 | the scan matches substrings: "unhappy" types Happy |
| Sentiment.GroupsDisjoint | app.py:38-44 | no classifier label belongs to two buckets |
| Sentiment.LabelOf | app.py:59 | no contract of its own: the lowercased `label` key, `''` when missing; used by `Sentiment.BucketStep` |
| Sentiment.ScoreOf | app.py:60 | no contract of its own: the `score` key, 0 when missing; used by `Sentiment.BucketStep` |
| Sentiment.BucketTotal | app.py:61-63 | no contract of its own: the scores of the items whose label is in one bucket's list; `Sentiment.BucketStep` states how each item adds in |
| Sentiment.Buckets | app.py:56-63 | five bucket totals, one per mood in order; `Sentiment.BucketStep`, `Sentiment.UnknownLabelIgnored` and `Sentiment.KnownLabelOneBucket` state how each item adds in |
| Sentiment.BucketStep | app.py:58-63 | one more item adds its score to a bucket exactly when the bucket's list holds its lowercased label |
| Sentiment.UnknownLabelIgnored | app.py:58-63 | an item whose label is in no list leaves all five bucket totals unchanged |
| Sentiment.KnownLabelOneBucket | app.py:58-63 | an item whose label is in one bucket's list adds its score to that bucket and to no other |
| Sentiment.SumBuckets | app.py:56-63 | the loop over items and buckets computes exactly the bucket totals |
| Sentiment.Classify | app.py:36-84 | every result has the five labels in order and scores summing to exactly 100 |
| Sentiment.AnalyzeSentiment | app.py:36-84 | a raised call gives the fallback scores with no typed mood; a positive bucket total gives the normalised totals with the typed mood; a total not positive gives the fallback scores with the typed mood; the method computes exactly `Classify` |
| Sentiment.ClassifyNonNegative | app.py:65-68 | when every classifier score is non-negative, every result score is non-negative |
| Sentiment.FallbackPathsDiffer | app.py:65-84 | for "happy", an answer with no usable label keeps typed mood Happy, a raised call gives none, and both carry the same fallback scores |
| Charts.Parsed | app.py:269-273 | no contract of its own: the stored record, or the five moods with zero scores when the blob does not parse; `Charts.UnparsedReadsZero` states what such an entry reads |
| Charts.Effective | app.py:268-278 | the effective record keeps the parsed labels; with a typed mood that is one of the five it has one score per label; with no typed mood, or one outside the five, it is the parsed record unchanged; `Charts.OneHotOverride` states the override itself |
| Charts.IndexOf | app.py:281 | none exactly when the mood is absent; otherwise the first position holding the mood |
| Charts.Lookup | app.py:281-282 | a mood absent from the labels reads 0; a failing read needs the mood in the labels and fewer scores than labels; `Charts.LookupFirstIndex` states the exact case |
| Charts.LookupMissing | app.py:281-282 | a mood absent from the labels reads 0 |
| Charts.LookupFirstIndex | app.py:281-282 | a mood present reads the score at its first position, or fails when the scores are too short |
| Charts.OneHotOverride | app.py:275-282 | with a known typed mood, the override has one score per stored label, and a mood reads 100 if it is the typed mood and in the labels, 0 otherwise, through its first position |
| Charts.OneHotOverrideShaped | app.py:277-278 | over the five stored labels, the override is exactly one-hot at the typed mood |
| Charts.UnparsedReadsZero | app.py:269-273 | a blob that does not parse, and has no known typed mood, reads 0 for every mood |
| Charts.WellStoredReadsPercentage | app.py:267-283 | an entry stored as five percentages in mood order, or not parsing, reads a percentage for every mood |
| Charts.Mean | app.py:285 | the mean of an empty list is 0, with no division; otherwise the mean times the length is the sum |
| Charts.MeanWithin | app.py:285 | the mean of values within bounds stays within them; an empty mean is 0 |
| Charts.MeanOfConstant | app.py:285 | the mean of copies of one value is that value |
| Charts.BarChart | app.py:264-295 | the bar chart exists exactly when every mood of every entry reads without error, and then has the five moods as labels and one dataset of five averages |
| Charts.LineChart | app.py:297-328 | the line chart exists exactly when every mood of every entry reads without error, and then has one x label per entry and five datasets |
| Charts.AppendScores | app.py:280-283 | one entry appends its score for each mood to that mood's list, or fails when some mood's lookup fails |
| Charts.BarChartData | app.py:264-295 | the bar-mode loops compute exactly `BarChart`: one mean per mood, in mood order |
| Charts.LineChartData | app.py:297-328 | the line-mode loops compute exactly `LineChart`: one series per mood, in mood order |
| Charts.ChartFor | app.py:264-297 | no contract of its own: `type=bar` selects the bar chart and every other type the line chart; `Charts.BuildChartData` is proved equal to it |
| Charts.BuildChartData | app.py:264-330 | `type=bar` gives the bar chart and every other type the line chart |
| Charts.BarEmptyWindow | app.py:285 | an empty window gives 0 for every mood in bar mode, with no division by zero |
| Charts.BarAveragesArePercentages | app.py:264-285 | over well-stored entries, bar mode does not fail and gives five averages, each between 0 and 100 |
| Charts.BarTypedWindow | app.py:275-285 | a window whose entries all type one mood averages 100 for it and 0 for the others, whatever the stored scores |
| Charts.LineSeriesShape | app.py:297-328 | line mode gives five series named after the moods in order, each with one value per entry in entry order |
| Charts.ModesFailTogether | app.py:280-282 | bar and line mode fail on the same windows: exactly those with an entry whose lookup fails |
| Journal.FreeTierBlocked | app.py:168-170 | no contract of its own: not premium and at least 5 entries; `Journal.FreeTierBoundary` states the boundary |
| Journal.FreeTierBoundary | app.py:168-172 | a non-premium user is let through with 4 entries and stopped with 5; a premium user is never stopped |
| Journal.NewEntry | app.py:175-183 | the new entry has the user, text and time given, a five-mood record summing to 100, no typed mood when the classifier call raised and the detected typed mood otherwise |
| Journal.JournalRoute | app.py:165-188 | the route redirects to the premium page exactly when the free-tier gate blocks; it keeps every existing entry and adds at most the new id |
| Journal.HistoryRoute | app.py:190-200 | the route is refused exactly when the gate blocks, and otherwise lists exactly the user's entry ids |
| Journal.ChartRoute | app.py:233-241 | the route redirects to the premium page exactly when the gate blocks, and renders the page otherwise |
| Journal.EditRoute | app.py:202-220 | not found exactly when the id is absent; the ids stay the same, no other entry changes, and the table changes only on the owner's posted edit |
| Journal.DeleteRoute | app.py:222-230 | not found exactly when the id is absent; at most that id is removed, no entry is changed, and the table changes only for the owner |
| Journal.GatesAgree | app.py:168-240 | the journal, history and chart routes (their gates at app.py:168-172, 193-197 and 236-240) redirect to the premium page in exactly the same situations |
| Journal.AddEntryCount | app.py:184-185 | a new entry under a fresh id raises its owner's count by one and leaves other users' counts alone |
| Journal.JournalSubmitEffect | app.py:168-187 | a posted entry is saved exactly when the gate lets the user through; it adds one entry owned by the user, with a five-mood record summing to 100, and changes no other entry |
| Journal.FreeTierCapKept | app.py:168-185 | a non-premium user with at most 5 entries still has at most 5 after any journal request |
| Journal.OthersEntriesUntouched | app.py:202-230 | edit and delete never change or remove another user's entry; on another user's entry both redirect and leave the table as it was |
| Journal.OwnerEditRecomputes | app.py:209-218 | an owner's edit keeps the entry's id, owner and time, and recomputes its whole mood record from the new text |
| Journal.OwnerDeleteRemoves | app.py:226-230 | an owner's delete removes exactly that entry and lowers the owner's count by one |
| Journal.ClassifiedScoresArePercentages | app.py:36-84 | with non-negative classifier scores, every score of a classified text lies between 0 and 100 |
| Journal.JournalEntriesChartAsPercentages | app.py:264-285 | entries created by the journal form chart in bar mode without failing, with every average a percentage |
| Accounts.CheckPremium | models.py:24-32 | the check answers true exactly when premium and without an expiry or with `now` at most the expiry; the state stays premium exactly when the answer is true; a true answer changes nothing |
| Accounts.CheckNeverPromotes | models.py:24-32 | the check never sets premium; an active answer changes nothing; a false answer leaves a non-premium state |
| Accounts.CheckIdempotent | models.py:24-32 | checking twice at the same time gives the same answer and state as checking once |
| Accounts.NotPremiumStaysInactive | models.py:25-26 | a non-premium user gets false from every later check, at any times |
| Accounts.OnceInactiveStaysInactive | models.py:24-32 | once a check in a sequence answers false, every later check answers false |
| Accounts.Upgraded | app.py:412-413 | no contract of its own: premium with expiry 30 days after the verification time; `Accounts.UpgradeWindow` states when it is active |
| Accounts.UpgradeWindow | models.py:27-32 | after a payment verified at t0, a check answers true exactly when now is at most t0 + 30 days |
| Accounts.ActiveThroughoutPeriod | models.py:27-32 | checks at any times up to the expiry all answer true |
| Accounts.User.constructor | models.py:12-14 | a new user is not premium and has no expiry |
| Accounts.User.IsPremiumActive | models.py:24-32 | not premium: false, nothing changes; premium and expired before now: false, both fields cleared; otherwise true, nothing changes (an expiry equal to now is still active) |
| Accounts.User.GrantPremium | app.py:411-413 | a verified payment sets premium with expiry 30 days after the verification time |

## Left out

- The HTTP handlers themselves are left out, because they are framework plumbing: templates, `flash`, `redirect`, `jsonify`, login sessions, and registration and login (app.py:115-163). The routes appear only as transitions over the entries table.
- The persistence layer is left out because it is SQLAlchemy: queries, sessions and commits, including the commit inside `is_premium_active` (models.py:30). The table is a map, a commit is the new map, and the id of a new entry is a parameter.
- The HTTP calls are not modelled. The classifier POST is represented by its outcome, a `ClassifierResponse`. Every exception it can raise is the one `Raised` case, including a body whose elements are not objects. Paystack initialisation and verification (app.py:345-424) are left out, except the post-verification update (`Accounts.User.GrantPremium`).
- JSON decoding of stored blobs is a library call. Only its outcome is modelled, as an `Option`. A parsed blob lacking the `labels` or `scores` key is not modelled.
- Floating point is not modelled. Scores are `real`, so "sums to 100" holds exactly, while Python only approximates it.
- The KES-to-cents conversion `int(amount_kes * 100)` is left out, because it depends on IEEE-754 truncation.
- Text.Lower: folds only ASCII letters, while Python's `str.lower` folds all of Unicode.
- Time is modelled as whole seconds on one clock. The source compares naive `datetime` values with microsecond resolution, and `datetime.utcnow` (entries, expiry) against `datetime.now` (the chart window).
- The chart window query is left out because it is a database query: entries of the user since `now - days`, ascending by timestamp. The aggregation takes the window as an input sequence.
- The `strftime` date labels are opaque strings. Chart colours and other dataset decoration are left out.
- The history page's ordering by timestamp is left out: `Journal.HistoryRoute` returns the set of the user's entry ids.
- Password hashing (models.py:18-22) is left out because it calls werkzeug.
- The browser script `static/js/main.js`, the migration `add_columns.py` and the network probe `test_paystack_key.py` are not part of this model.
