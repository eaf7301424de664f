/** The history tab, src/components/RunHistory.tsx: the runs read from storage,
    newest first, with deletion and a confirmed "Clear All". */
module RunHistoryView {
  import opened ApiTypes
  import opened BrowserStorage
  import opened StorageKeys
  import History

  /** Non-increasing timestamps: the order `(a, b) => b.timestamp - a.timestamp` asks for. */
  predicate NewestFirst(runs: seq<RunHistory>) {
    forall p, q | 0 <= p < q < |runs| :: runs[p].timestamp >= runs[q].timestamp
  }

  /** `storedHistory.sort((a, b) => b.timestamp - a.timestamp)`, in place: an
      insertion sort that moves each run left past the older ones. */
  method SortNewestFirst(a: array<RunHistory>)
    modifies a
    ensures NewestFirst(a[..])
    ensures multiset(a[..]) == multiset(old(a[..]))
  {
    if a.Length == 0 {
      return;
    }
    for i := 1 to a.Length
      invariant forall p, q | 0 <= p < q < i :: a[p].timestamp >= a[q].timestamp
      invariant multiset(a[..]) == multiset(old(a[..]))
    {
      InsertNewest(a, i);
    }
  }

  /** One step of the sort: the run at `i` moves left into the sorted prefix. */
  method InsertNewest(a: array<RunHistory>, i: int)
    requires 0 < i < a.Length
    requires forall p, q | 0 <= p < q < i :: a[p].timestamp >= a[q].timestamp
    modifies a
    ensures forall p, q | 0 <= p < q <= i :: a[p].timestamp >= a[q].timestamp
    ensures multiset(a[..]) == multiset(old(a[..]))
  {
    var j := i;
    while j > 0 && a[j - 1].timestamp < a[j].timestamp
      invariant 0 <= j <= i
      invariant forall p, q | 0 <= p < q <= i && p != j && q != j :: a[p].timestamp >= a[q].timestamp
      invariant forall q | j < q <= i :: a[j].timestamp > a[q].timestamp
      invariant multiset(a[..]) == multiset(old(a[..]))
    {
      a[j - 1], a[j] := a[j], a[j - 1];
      j := j - 1;
    }
  }

  /** Deleting keeps a newest-first list newest first. */
  lemma {:induction false} WithoutRunKeepsOrder(runs: seq<RunHistory>, id: string)
    requires NewestFirst(runs)
    ensures NewestFirst(History.WithoutRun(runs, id))
  {
    if |runs| > 0 {
      var rest := History.WithoutRun(runs[1..], id);
      WithoutRunKeepsOrder(runs[1..], id);
      forall run | run in rest ensures runs[0].timestamp >= run.timestamp {
        History.WithoutRunMembers(runs[1..], id, run);
        var q :| 0 <= q < |runs[1..]| && runs[1..][q] == run;
        assert runs[q + 1] == run;
      }
    }
  }

  /** The component's state: the displayed runs and the loading flag. */
  class RunHistoryView {
    var history: seq<RunHistory>
    var isLoading: bool

    /** The first render, before the effect loads the history. */
    constructor()
      ensures history == [] && isLoading
    {
      history := [];
      isLoading := true;
    }

    /** loadHistory: the stored runs, newest first; the loading flag ends false. */
    method LoadHistory(store: LocalStorage)
      modifies this
      ensures NewestFirst(history)
      ensures multiset(history) == multiset(History.GetHistory(store.items))
      ensures !isLoading
    {
      isLoading := true;
      var storedHistory := History.GetHistory(store.items);
      var a := new RunHistory[|storedHistory|](k requires 0 <= k < |storedHistory| => storedHistory[k]);
      assert a[..] == storedHistory;
      SortNewestFirst(a);
      history := a[..];
      isLoading := false;
    }

    /** handleDelete: the run leaves storage and the view; the rest keep their order. */
    method HandleDelete(store: LocalStorage, id: string)
      modifies this, store
      ensures store.items == old(store.items)[HISTORY_KEY :=
        Stored.HistoryRecord(History.Recent(History.WithoutRun(History.GetHistory(old(store.items)), id)))]
      ensures history == History.WithoutRun(old(history), id)
      ensures isLoading == old(isLoading)
    {
      var remaining := History.WithoutRun(history, id);
      assert this as object != store as object;
      History.DeleteRun(store, id);
      history := remaining;
    }

    /** handleClearAll, with the answer of `window.confirm` as `confirmed`. */
    method HandleClearAll(store: LocalStorage, confirmed: bool)
      modifies this, store
      ensures confirmed ==> store.items == old(store.items) - {HISTORY_KEY} && history == []
      ensures !confirmed ==> store.items == old(store.items) && history == old(history)
      ensures isLoading == old(isLoading)
    {
      if confirmed {
        assert this as object != store as object;
        History.ClearHistory(store);
        history := [];
      }
    }
  }
}
