/**
 * The journal entry store as the routes `journal`, `history`, `chart`,
 * `edit_entry` and `delete_entry` use it: the free-tier gate, the creation of
 * an entry with its mood record, and the owner checks on edit and delete.
 * The database is a map from entry id to entry; a commit is the new map.
 */
module Journal {
  import opened Wrappers
  import opened Scoring
  import opened Fallback
  import opened Sentiment
  import opened Charts

  /** The number of entries a user who is not premium may reach. */
  const FreeTierLimit: nat := 5

  /** A journal entry: owner, text, creation time, and the mood record computed from the text. */
  datatype JournalEntry = JournalEntry(
    userId: nat, content: string, timestamp: int, moodScores: Distribution, typedMood: Option<string>)

  /** The entries table, by id. */
  type Store = map<nat, JournalEntry>

  /** Where a request ends. */
  datatype Page = Rendered | RedirectToPremium | RedirectToDashboard | RedirectToHistory | NotFound

  /** The page a request ends on and the table after it. */
  datatype Outcome = Outcome(page: Page, store: Store)

  /** A posted journal form: the id the database assigns, the creation time, the text, and what the classifier answered. */
  datatype Submission = Submission(newId: nat, timestamp: int, content: string, response: ClassifierResponse)

  /** A posted edit form: the new text and what the classifier answered. */
  datatype Revision = Revision(content: string, response: ClassifierResponse)

  /** The ids of the user's entries. */
  function OwnedIds(store: Store, userId: nat): set<nat> {
    set id | id in store && store[id].userId == userId
  }

  /** `JournalEntry.query.filter_by(user_id=...).count()`. */
  function EntryCount(store: Store, userId: nat): nat {
    |OwnedIds(store, userId)|
  }

  /** The gate at the top of `journal`, `history` and `chart`. */
  predicate FreeTierBlocked(premiumActive: bool, entryCount: nat) {
    !premiumActive && entryCount >= FreeTierLimit
  }

  /** A user who is not premium is let through with 4 entries and stopped with 5; a premium user is never stopped. */
  lemma FreeTierBoundary(entryCount: nat)
    ensures !FreeTierBlocked(false, 4) && FreeTierBlocked(false, 5)
    ensures !FreeTierBlocked(true, entryCount)
    ensures FreeTierBlocked(false, entryCount) <==> entryCount >= 5
  {
  }

  /** The entry the journal form creates, with the record `analyze_sentiment` computes for its text. */
  function NewEntry(userId: nat, timestamp: int, content: string, response: ClassifierResponse): (r: JournalEntry)
    ensures r.userId == userId && r.content == content && r.timestamp == timestamp
    ensures Shaped(r.moodScores) && Sum(r.moodScores.scores) == 100.0
    ensures response.Raised? ==> r.typedMood.None?
    ensures response.Items? ==> r.typedMood == TypedMood(content)
  {
    var record := Classify(content, response);
    JournalEntry(userId, content, timestamp, record.dist, record.typedMood)
  }

  /** The `journal` route: the gate, then the form (GET) or a new entry (POST). */
  function JournalRoute(store: Store, userId: nat, premiumActive: bool, post: Option<Submission>): (r: Outcome)
    requires post.Some? ==> post.value.newId !in store
    ensures r.page == RedirectToPremium <==> FreeTierBlocked(premiumActive, EntryCount(store, userId))
    ensures forall id :: id in store ==> id in r.store && r.store[id] == store[id]
    ensures r.store.Keys <= store.Keys + (if post.Some? then {post.value.newId} else {})
  {
    if FreeTierBlocked(premiumActive, EntryCount(store, userId)) then Outcome(RedirectToPremium, store)
    else match post
      case None => Outcome(Rendered, store)
      case Some(sub) =>
        Outcome(RedirectToDashboard, store[sub.newId := NewEntry(userId, sub.timestamp, sub.content, sub.response)])
  }

  /** The `history` route: the gate, then the user's entries. */
  function HistoryRoute(store: Store, userId: nat, premiumActive: bool): (r: Option<set<nat>>)
    ensures r.None? <==> FreeTierBlocked(premiumActive, EntryCount(store, userId))
    ensures r.Some? ==> forall id :: id in r.value <==> id in store && store[id].userId == userId
  {
    if FreeTierBlocked(premiumActive, EntryCount(store, userId)) then None else Some(OwnedIds(store, userId))
  }

  /** The `chart` route: the gate, then the chart page. */
  function ChartRoute(store: Store, userId: nat, premiumActive: bool): (r: Page)
    ensures r == RedirectToPremium <==> FreeTierBlocked(premiumActive, EntryCount(store, userId))
    ensures r != RedirectToPremium ==> r == Rendered
  {
    if FreeTierBlocked(premiumActive, EntryCount(store, userId)) then RedirectToPremium else Rendered
  }

  /** The `edit_entry` route: 404, a redirect for another user's entry, the form (GET), or the rewritten entry (POST). */
  function EditRoute(store: Store, id: nat, userId: nat, post: Option<Revision>): (r: Outcome)
    ensures r.page == NotFound <==> id !in store
    ensures r.store.Keys == store.Keys
    ensures forall k :: k in store && k != id ==> r.store[k] == store[k]
    ensures r.store != store ==> id in store && store[id].userId == userId && post.Some?
  {
    if id !in store then Outcome(NotFound, store)
    else if store[id].userId != userId then Outcome(RedirectToHistory, store)
    else match post
      case None => Outcome(Rendered, store)
      case Some(rev) =>
        var oldEntry := store[id];
        var record := Classify(rev.content, rev.response);
        Outcome(RedirectToHistory,
          store[id := oldEntry.(content := rev.content, moodScores := record.dist, typedMood := record.typedMood)])
  }

  /** The `delete_entry` route: 404, or a redirect that removes the entry only when it is the user's. */
  function DeleteRoute(store: Store, id: nat, userId: nat): (r: Outcome)
    ensures r.page == NotFound <==> id !in store
    ensures r.store.Keys <= store.Keys && store.Keys - r.store.Keys <= {id}
    ensures forall k :: k in r.store ==> r.store[k] == store[k]
    ensures r.store != store ==> id in store && store[id].userId == userId
  {
    if id !in store then Outcome(NotFound, store)
    else if store[id].userId == userId then Outcome(RedirectToHistory, store - {id})
    else Outcome(RedirectToHistory, store)
  }

  /** The three gated routes stop a user in exactly the same situations. */
  lemma GatesAgree(store: Store, userId: nat, premiumActive: bool, post: Option<Submission>)
    requires post.Some? ==> post.value.newId !in store
    ensures var blocked := FreeTierBlocked(premiumActive, EntryCount(store, userId));
      (JournalRoute(store, userId, premiumActive, post) == Outcome(RedirectToPremium, store) <==> blocked) &&
      (HistoryRoute(store, userId, premiumActive).None? <==> blocked) &&
      (ChartRoute(store, userId, premiumActive) == RedirectToPremium <==> blocked)
  {
  }

  /** Adding an entry under a fresh id raises its owner's count by one and leaves every other user's count alone. */
  lemma AddEntryCount(store: Store, newId: nat, e: JournalEntry, userId: nat)
    requires newId !in store
    ensures EntryCount(store[newId := e], userId) ==
      if e.userId == userId then EntryCount(store, userId) + 1 else EntryCount(store, userId)
  {
    if e.userId == userId {
      assert OwnedIds(store[newId := e], userId) == OwnedIds(store, userId) + {newId};
    } else {
      assert OwnedIds(store[newId := e], userId) == OwnedIds(store, userId);
    }
  }

  /**
   * A posted journal entry is saved exactly when the gate lets the user
   * through, and then adds one entry, owned by the user, carrying the mood
   * record of its text.
   */
  lemma JournalSubmitEffect(store: Store, userId: nat, premiumActive: bool, sub: Submission)
    requires sub.newId !in store
    ensures var r := JournalRoute(store, userId, premiumActive, Some(sub));
      if FreeTierBlocked(premiumActive, EntryCount(store, userId)) then r == Outcome(RedirectToPremium, store)
      else (r.page == RedirectToDashboard &&
        r.store.Keys == store.Keys + {sub.newId} &&
        r.store[sub.newId] == NewEntry(userId, sub.timestamp, sub.content, sub.response) &&
        r.store[sub.newId].content == sub.content &&
        (forall id :: id in store ==> r.store[id] == store[id]) &&
        r.store[sub.newId].userId == userId &&
        Shaped(r.store[sub.newId].moodScores) &&
        Sum(r.store[sub.newId].moodScores.scores) == 100.0 &&
        EntryCount(r.store, userId) == EntryCount(store, userId) + 1)
  {
    if !FreeTierBlocked(premiumActive, EntryCount(store, userId)) {
      AddEntryCount(store, sub.newId, NewEntry(userId, sub.timestamp, sub.content, sub.response), userId);
    }
  }

  /** A user who is not premium and has at most 5 entries still has at most 5 after any journal request. */
  lemma FreeTierCapKept(store: Store, userId: nat, post: Option<Submission>)
    requires post.Some? ==> post.value.newId !in store
    requires EntryCount(store, userId) <= FreeTierLimit
    ensures EntryCount(JournalRoute(store, userId, false, post).store, userId) <= FreeTierLimit
  {
    if post.Some? && !FreeTierBlocked(false, EntryCount(store, userId)) {
      JournalSubmitEffect(store, userId, false, post.value);
    }
  }

  /** Editing or deleting never changes, nor removes, an entry the user does not own. */
  lemma OthersEntriesUntouched(store: Store, id: nat, userId: nat, post: Option<Revision>)
    ensures forall k :: k in store && store[k].userId != userId ==>
      k in EditRoute(store, id, userId, post).store && EditRoute(store, id, userId, post).store[k] == store[k]
    ensures forall k :: k in store && store[k].userId != userId ==>
      k in DeleteRoute(store, id, userId).store && DeleteRoute(store, id, userId).store[k] == store[k]
    ensures id in store && store[id].userId != userId ==>
      EditRoute(store, id, userId, post) == Outcome(RedirectToHistory, store) &&
      DeleteRoute(store, id, userId) == Outcome(RedirectToHistory, store)
  {
  }

  /** An owner's posted edit keeps the entry's id, owner and time and recomputes its whole mood record from the new text. */
  lemma OwnerEditRecomputes(store: Store, id: nat, userId: nat, rev: Revision)
    requires id in store && store[id].userId == userId
    ensures var r := EditRoute(store, id, userId, Some(rev));
      var record := Classify(rev.content, rev.response);
      r.page == RedirectToHistory && r.store.Keys == store.Keys &&
      r.store[id] == JournalEntry(userId, rev.content, store[id].timestamp, record.dist, record.typedMood) &&
      forall k :: k in store && k != id ==> r.store[k] == store[k]
  {
  }

  /** An owner's delete removes exactly that entry. */
  lemma OwnerDeleteRemoves(store: Store, id: nat, userId: nat)
    requires id in store && store[id].userId == userId
    ensures DeleteRoute(store, id, userId).store.Keys == store.Keys - {id}
    ensures EntryCount(DeleteRoute(store, id, userId).store, userId) == EntryCount(store, userId) - 1
  {
    var after := DeleteRoute(store, id, userId).store;
    assert OwnedIds(store, userId) == OwnedIds(after, userId) + {id};
  }

  /** How the chart reads an entry: its stored scores (already parsed) and its typed mood. */
  function AsStored(e: JournalEntry, date: string): StoredEntry {
    StoredEntry(date, Some(e.moodScores), e.typedMood)
  }

  /** Every score of a classified text is a percentage when the classifier's scores are non-negative. */
  lemma ClassifiedScoresArePercentages(content: string, response: ClassifierResponse)
    requires response.Items? ==> forall k :: 0 <= k < |response.items| ==> ScoreOf(response.items[k]) >= 0.0
    ensures var d := Classify(content, response).dist;
      forall i :: 0 <= i < |Moods| ==> 0.0 <= d.scores[i] <= 100.0
  {
    var d := Classify(content, response).dist;
    ClassifyNonNegative(content, response);
    forall i | 0 <= i < |Moods| ensures d.scores[i] <= 100.0 {
      SumAtLeastElement(d.scores, i);
    }
  }

  /**
   * Entries created by the journal form, when the classifier's scores are
   * non-negative, chart in bar mode without failing, and every average is a
   * percentage.
   */
  lemma JournalEntriesChartAsPercentages(
    contents: seq<string>, responses: seq<ClassifierResponse>, dates: seq<string>, userId: nat, timestamp: int)
    requires |contents| == |responses| == |dates|
    requires forall q, k :: 0 <= q < |responses| && responses[q].Items? && 0 <= k < |responses[q].items| ==>
      ScoreOf(responses[q].items[k]) >= 0.0
    ensures var window := seq(|contents|, q requires 0 <= q < |contents| =>
        AsStored(NewEntry(userId, timestamp, contents[q], responses[q]), dates[q]));
      BarChart(window).Some? &&
      forall j :: 0 <= j < |Moods| ==> 0.0 <= BarChart(window).value.datasets[0].data[j] <= 100.0
  {
    var window := seq(|contents|, q requires 0 <= q < |contents| =>
      AsStored(NewEntry(userId, timestamp, contents[q], responses[q]), dates[q]));
    forall q | 0 <= q < |window| ensures WellStored(window[q]) {
      ClassifiedScoresArePercentages(contents[q], responses[q]);
    }
    BarAveragesArePercentages(window);
  }
}
