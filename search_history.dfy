/**
 * The bounded, most-recent-first history of selected search results
 * (`saveToHistory` in src/lib/components/search/search.svelte.ts).
 */
module SearchHistory {
  import opened JsString
  import opened Osm
  import opened SearchCache

  /** `SearchHistoryItem` */
  datatype HistoryItem = HistoryItem(query: string, timestamp: int, result: Feature)

  /** `MAX_HISTORY` */
  const MaxHistory: nat := 5

  /** `item => item.query.toLowerCase() !== query.toLowerCase()` */
  function OtherEntry(q: string): HistoryItem -> bool {
    (h: HistoryItem) => !SameQuery(h.query, q)
  }

  /** The list `saveToHistory` stores: the new entry first, then the older entries for other queries, cut at five. */
  function AddToHistory(history: seq<HistoryItem>, q: string, result: Feature, now: int): seq<HistoryItem> {
    Take([HistoryItem(q, now, result)] + Filter(history, OtherEntry(q)), MaxHistory)
  }

  ghost predicate NoDuplicateEntries(history: seq<HistoryItem>) {
    forall i, j :: 0 <= i < j < |history| ==> !SameQuery(history[i].query, history[j].query)
  }

  /**
   * The new entry is at index 0, no other entry has its query (ignoring
   * case), the survivors are the most recent of the others, in their
   * order, and there are at most five.
   */
  lemma AddToHistoryShape(history: seq<HistoryItem>, q: string, result: Feature, now: int)
    ensures var h := AddToHistory(history, q, result, now);
      && 1 <= |h| <= MaxHistory
      && h[0] == HistoryItem(q, now, result)
      && (forall i :: 1 <= i < |h| ==> !SameQuery(h[i].query, q) && h[i] in history)
      && IsSubsequence(h[1..], Filter(history, OtherEntry(q)))
      && h[1..] == Filter(history, OtherEntry(q))[..|h| - 1]
      && |h| == if |Filter(history, OtherEntry(q))| < MaxHistory then |Filter(history, OtherEntry(q))| + 1 else MaxHistory
  {
    var others := Filter(history, OtherEntry(q));
    var full := [HistoryItem(q, now, result)] + others;
    var h := AddToHistory(history, q, result, now);
    var n := if |others| < MaxHistory then |others| else MaxHistory - 1;
    assert h[1..] == others[..n];
    forall i | 1 <= i < |h| ensures !SameQuery(h[i].query, q) && h[i] in history {
      assert h[i] == others[i - 1] && others[i - 1] in others;
    }
    PrefixIsSubsequence(others, n);
  }

  /** Adding keeps the history free of duplicate queries. */
  lemma AddToHistoryNoDuplicates(history: seq<HistoryItem>, q: string, result: Feature, now: int)
    requires NoDuplicateEntries(history)
    ensures NoDuplicateEntries(AddToHistory(history, q, result, now))
  {
    var others := Filter(history, OtherEntry(q));
    var h := AddToHistory(history, q, result, now);
    AddToHistoryShape(history, q, result, now);
    FilterKeepsNoDuplicates(history, OtherEntry(q));
    forall i, j | 0 <= i < j < |h| ensures !SameQuery(h[i].query, h[j].query) {
      if i > 0 {
        assert h[i] == others[i - 1] && h[j] == others[j - 1];
      }
    }
  }

  lemma {:induction false} FilterKeepsNoDuplicates(history: seq<HistoryItem>, p: HistoryItem -> bool)
    requires NoDuplicateEntries(history)
    ensures NoDuplicateEntries(Filter(history, p))
    decreases |history|
  {
    if history != [] {
      FilterKeepsNoDuplicates(history[1..], p);
      if p(history[0]) {
        var f := Filter(history, p);
        assert f == [history[0]] + Filter(history[1..], p);
        forall j | 0 < j < |f| ensures !SameQuery(f[0].query, f[j].query) {
          assert f[j] in history[1..];
        }
      }
    }
  }

  /** Selecting a sixth distinct query drops the oldest of the five before it. */
  lemma SixthSelectionDropsOldest(history: seq<HistoryItem>, q: string, result: Feature, now: int)
    requires |history| == MaxHistory
    requires forall i :: 0 <= i < |history| ==> !SameQuery(history[i].query, q)
    ensures AddToHistory(history, q, result, now) == [HistoryItem(q, now, result)] + history[..MaxHistory - 1]
  {
    FilterKeepsAll(history, OtherEntry(q));
  }

}
