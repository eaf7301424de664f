/** HistoryService of src/services/history.ts: a log of generation runs kept in
    `localStorage`, holding at most the fifty most recent. */
module History {
  import opened ApiTypes
  import opened JsStrings
  import opened StorageKeys
  import opened BrowserStorage

  const MAX_HISTORY_ITEMS: int := 50

  /** HistoryService.getHistory: the stored list, or `[]` when the item is
      missing, empty or unparsable. */
  function GetHistory(items: map<string, Stored>): (h: seq<RunHistory>)
    ensures h == [] || (HISTORY_KEY in items && items[HISTORY_KEY] == HistoryRecord(h))
    ensures HISTORY_KEY in items && items[HISTORY_KEY].HistoryRecord? ==> h == items[HISTORY_KEY].runs
  {
    if HISTORY_KEY in items && items[HISTORY_KEY].HistoryRecord? then items[HISTORY_KEY].runs
    else []
  }

  /** `history.slice(-MAX_HISTORY_ITEMS)`: the most recent fifty runs. */
  function Recent(history: seq<RunHistory>): (r: seq<RunHistory>)
    ensures |r| == Min(|history|, MAX_HISTORY_ITEMS)
    ensures r == history[|history| - |r|..]
  {
    SliceFrom(history, -MAX_HISTORY_ITEMS)
  }

  /** A run stamped with the id and time `addRun` generates. */
  function Stamp(run: NewRun, id: string, timestamp: int): (r: RunHistory)
    ensures r.id == id && r.timestamp == timestamp
    ensures r.parameters == run.parameters && r.request == run.request && r.response == run.response
  {
    RunHistory(id, timestamp, run.parameters, run.request, run.response)
  }

  /** `history.filter(run => run.id !== id)`. */
  function WithoutRun(history: seq<RunHistory>, id: string): (r: seq<RunHistory>)
    ensures |r| <= |history|
  {
    if |history| == 0 then []
    else if history[0].id != id then [history[0]] + WithoutRun(history[1..], id)
    else WithoutRun(history[1..], id)
  }

  /** HistoryService.saveHistory: overwrites the record with the most recent runs. */
  method SaveHistory(store: LocalStorage, history: seq<RunHistory>)
    modifies store
    ensures store.items == old(store.items)[HISTORY_KEY := HistoryRecord(Recent(history))]
  {
    var limitedHistory := SliceFrom(history, -MAX_HISTORY_ITEMS);
    store.SetItem(HISTORY_KEY, HistoryRecord(limitedHistory));
  }

  /** HistoryService.addRun; the id and the time are the caller's. */
  method AddRun(store: LocalStorage, run: NewRun, id: string, timestamp: int)
    modifies store
    ensures store.items ==
      old(store.items)[HISTORY_KEY := HistoryRecord(Recent(GetHistory(old(store.items)) + [Stamp(run, id, timestamp)]))]
  {
    var history := GetHistory(store.items);
    var newRun := Stamp(run, id, timestamp);
    history := history + [newRun];
    SaveHistory(store, history);
  }

  /** HistoryService.deleteRun. */
  method DeleteRun(store: LocalStorage, id: string)
    modifies store
    ensures store.items ==
      old(store.items)[HISTORY_KEY := HistoryRecord(Recent(WithoutRun(GetHistory(old(store.items)), id)))]
  {
    var history := GetHistory(store.items);
    var filteredHistory := WithoutRun(history, id);
    SaveHistory(store, filteredHistory);
  }

  /** HistoryService.clearHistory. */
  method ClearHistory(store: LocalStorage)
    modifies store
    ensures store.items == old(store.items) - {HISTORY_KEY}
  {
    store.RemoveItem(HISTORY_KEY);
  }

  // ----- Properties -----

  /** What is read back after a save is the last min(n, 50) runs, in order,
      whatever was stored before: the stored list never exceeds fifty runs
      after a save, an addition or a deletion. */
  lemma SaveThenGet(items: map<string, Stored>, history: seq<RunHistory>)
    ensures var h := GetHistory(items[HISTORY_KEY := HistoryRecord(Recent(history))]);
      |h| == Min(|history|, MAX_HISTORY_ITEMS) && h == history[|history| - |h|..]
  {
  }

  /** A run added to a log below the bound is appended after all earlier runs;
      added to a full log, it pushes out the oldest and the length stays fifty. */
  lemma AddRunAppends(history: seq<RunHistory>, newRun: RunHistory)
    requires |history| <= MAX_HISTORY_ITEMS
    ensures var r := Recent(history + [newRun]);
      r[|r| - 1] == newRun &&
      (|history| < MAX_HISTORY_ITEMS ==> r == history + [newRun]) &&
      (|history| == MAX_HISTORY_ITEMS ==> r == history[1..] + [newRun])
  {
    var r := Recent(history + [newRun]);
    if |history| == MAX_HISTORY_ITEMS {
      assert (history + [newRun])[1..] == history[1..] + [newRun];
    }
  }

  /** After `addRun` the log's newest run is the one just added; the log grows
      by one until it holds fifty runs. */
  lemma AddedRunIsNewest(items: map<string, Stored>, run: RunHistory)
    ensures var before := GetHistory(items);
      var after := GetHistory(items[HISTORY_KEY := HistoryRecord(Recent(before + [run]))]);
      |after| <= MAX_HISTORY_ITEMS && (|before| < MAX_HISTORY_ITEMS ==> |after| == |before| + 1) &&
      |after| > 0 && after[|after| - 1] == run
  {
    var before := GetHistory(items);
    var r := Recent(before + [run]);
    assert GetHistory(items[HISTORY_KEY := HistoryRecord(r)]) == r;
    assert r[|r| - 1] == (before + [run])[|before|];
  }

  /** Every run whose id differs is kept and every run with the id is gone. */
  lemma {:induction false} WithoutRunMembers(history: seq<RunHistory>, id: string, run: RunHistory)
    ensures run in WithoutRun(history, id) <==> run in history && run.id != id
  {
    if |history| > 0 {
      WithoutRunMembers(history[1..], id, run);
      assert history == [history[0]] + history[1..];
    }
  }

  /** Deleting keeps the remaining runs in their order: the filter distributes
      over concatenation. */
  lemma {:induction false} WithoutRunConcat(a: seq<RunHistory>, b: seq<RunHistory>, id: string)
    ensures WithoutRun(a + b, id) == WithoutRun(a, id) + WithoutRun(b, id)
  {
    if |a| > 0 {
      assert (a + b)[0] == a[0];
      assert (a + b)[1..] == a[1..] + b;
      WithoutRunConcat(a[1..], b, id);
    } else {
      assert a + b == b;
    }
  }

  /** Deleting an id no run carries changes nothing. */
  lemma {:induction false} WithoutAbsentRun(history: seq<RunHistory>, id: string)
    requires forall k | 0 <= k < |history| :: history[k].id != id
    ensures WithoutRun(history, id) == history
  {
    if |history| > 0 {
      WithoutAbsentRun(history[1..], id);
      assert [history[0]] + history[1..] == history;
    }
  }

  /** Once a list of at most fifty runs is stored, deleting an absent id stores
      the same list. */
  lemma DeleteAbsentRun(items: map<string, Stored>, id: string)
    requires |GetHistory(items)| <= MAX_HISTORY_ITEMS
    requires forall run | run in GetHistory(items) :: run.id != id
    ensures GetHistory(items[HISTORY_KEY := HistoryRecord(Recent(WithoutRun(GetHistory(items), id)))]) ==
      GetHistory(items)
  {
    WithoutAbsentRun(GetHistory(items), id);
  }

  /** After clearing, the log reads as empty. */
  lemma ClearThenGet(items: map<string, Stored>)
    ensures GetHistory(items - {HISTORY_KEY}) == []
  {
  }
}
