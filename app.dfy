/** The session logic of js/app.js: the in-memory budget list and chart
    index, the initial load and its choice between the remote and the local
    store, the local recompute of consumed amounts, and the handlers that
    import, save and submit. Awaited calls into the remote endpoint are
    inputs: each returns a value or throws. */
module App {
  import opened Common
  import opened Records
  import opened Reconcile
  import opened Store
  import opened ItemForm
  import opened RequestSheet

  /** Whether the try block of `loadInitialData` runs to its end
      (js/app.js:31-54): the list was read, and when it is recomputed the
      local history was read as well. */
  predicate LoadCompletes(forceLocal: bool, source: Completion<seq<Allocation>>, history: Completion<seq<Entry>>) {
    source.Returned? && !(forceLocal && |source.value| > 0 && history.Threw?)
  }

  /** The chart index after the "next" button, with n > 0 budget lines (js/app.js:127). */
  function NextIndex(i: nat, n: nat): (r: nat)
    requires n > 0
    ensures r < n
  {
    (i + 1) % n
  }

  /** The chart index after the "previous" button, with n > 0 budget lines (js/app.js:121). */
  function PrevIndex(i: nat, n: nat): (r: nat)
    requires n > 0
    ensures r < n
  {
    (i - 1 + n) % n
  }

  /** Euclidean remainder through any decomposition x == q * n + r. */
  lemma ModOf(x: int, n: int, q: int, r: int)
    requires n > 0 && 0 <= r < n && x == q * n + r
    ensures x % n == r
  {
    var d := q - x / n;
    assert x == (x / n) * n + x % n;
    assert d * n == x % n - r;
  }

  /** The two buttons undo each other on every index in range. */
  lemma PrevNextInverse(i: nat, n: nat)
    requires i < n
    ensures PrevIndex(NextIndex(i, n), n) == i
    ensures NextIndex(PrevIndex(i, n), n) == i
  {
    if i + 1 == n {
      ModOf(i + 1, n, 1, 0);
      ModOf(0 - 1 + n, n, 0, n - 1);
    } else {
      ModOf(i + 1, n, 0, i + 1);
      ModOf(i + 1 - 1 + n, n, 1, i);
    }
    if i == 0 {
      ModOf(i - 1 + n, n, 0, n - 1);
      ModOf(n - 1 + 1, n, 1, 0);
    } else {
      ModOf(i - 1 + n, n, 1, i - 1);
      ModOf(i - 1 + 1, n, 0, i);
    }
  }

  /** The index after k presses of "next". */
  function NextTimes(i: nat, n: nat, k: nat): (r: nat)
    requires n > 0
  {
    if k == 0 then i else NextIndex(NextTimes(i, n, k - 1), n)
  }

  /** "next" from the remainder of a is the remainder of a + 1. */
  lemma NextOfRemainder(a: nat, n: nat)
    requires n > 0
    ensures NextIndex(a % n, n) == (a + 1) % n
  {
    var q, m := a / n, a % n;
    assert a == q * n + m;
    if m + 1 == n {
      ModOf(m + 1, n, 1, 0);
      ModOf(a + 1, n, q + 1, 0);
    } else {
      ModOf(m + 1, n, 0, m + 1);
      ModOf(a + 1, n, q, m + 1);
    }
  }

  /** k presses of "next" move the index k places round the cycle, so n
      presses bring it back to where it was. */
  lemma {:induction false} NextTimesShift(i: nat, n: nat, k: nat)
    requires i < n
    ensures NextTimes(i, n, k) == (i + k) % n
  {
    if k == 0 {
      ModOf(i, n, 0, i);
    } else {
      NextTimesShift(i, n, k - 1);
      NextOfRemainder(i + k - 1, n);
    }
  }

  /** n presses of "next" on n budget lines show the same line again. */
  lemma NextCycle(i: nat, n: nat)
    requires i < n
    ensures NextTimes(i, n, n) == i
  {
    NextTimesShift(i, n, n);
    ModOf(i + n, n, 1, i);
  }

  /** How a submit ends: the form refused the request, the user cancelled
      the confirmation, the store call threw (with the alert text), or it
      went through. */
  datatype SubmitOutcome = FormRefused(error: FormError) | Cancelled | Failed(alert: string) | Submitted

  /** The global `appState` (js/app.js:3-6). */
  class AppState {
    var budgetItems: seq<Allocation>
    var currentBudgetIndex: nat

    constructor ()
      ensures budgetItems == [] && currentBudgetIndex == 0
    {
      budgetItems := [];
      currentBudgetIndex := 0;
    }

    /** `loadInitialData(forceLocal)` (js/app.js:29-60). The list comes from
        the local store when `forceLocal` is set or no endpoint is
        configured, and from the remote call otherwise. If reading it throws,
        the error is caught and the list is left as it was. Otherwise the
        list is installed as it came; only when `forceLocal` is set and the
        list is non-empty is every `used` recomputed from the local history
        (if that history reads). Once the try block has run to its end, the
        rows' budget selects are refreshed from `window.appState`
        (`windowItems`); after a caught error the table is as it was. The
        promise itself never rejects. */
    method LoadInitialData(forceLocal: bool, url: Option<string>, store: LedgerStore, remote: Completion<seq<Allocation>>,
                           table: ItemsTable, windowItems: Option<seq<Allocation>>)
      returns (threw: bool)
      requires table.Valid()
      modifies this, table
      ensures !threw
      ensures currentBudgetIndex == old(currentBudgetIndex)
      ensures table.Valid() && table.deleteMode == old(table.deleteMode)
      ensures var source := if forceLocal || !Configured(url) then store.LocalBudget() else remote;
        if LoadCompletes(forceLocal, source, store.LocalHistory())
        then Refreshed(old(table.rows), table.rows, BudgetOptions(windowItems))
        else table.rows == old(table.rows)
      ensures var source := if forceLocal || !Configured(url) then store.LocalBudget() else remote;
        && (source.Threw? ==> budgetItems == old(budgetItems))
        && (source.Returned? && !(forceLocal && |source.value| > 0) ==> budgetItems == source.value)
        && (source.Returned? && forceLocal && |source.value| > 0 && store.LocalHistory().Threw? ==>
              budgetItems == source.value)
        && (source.Returned? && forceLocal && |source.value| > 0 && store.LocalHistory().Returned? ==>
              budgetItems == Recomputed(source.value, store.LocalHistory().value))
    {
      threw := false;
      var source: Completion<seq<Allocation>>;
      if forceLocal || !Configured(url) {
        source := store.LocalBudget();
      } else {
        source := remote;
      }
      if source.Threw? {
        return;  // caught and logged at js/app.js:55-57
      }
      var budgetData := source.value;
      budgetItems := budgetData;
      if forceLocal && |budgetData| > 0 {
        var read := store.LocalHistory();
        if read.Threw? {
          return;  // caught and logged at js/app.js:55-57
        }
        RecomputeUsed(read.value);
      }
      table.UpdateBudgetDropdown(windowItems);
    }

    /** The recompute block of `loadInitialData` (js/app.js:43-49), on the
        list just installed: every `used` is reset to 0, then each request
        of the history credits the first line keyed by its `budgetName`.
        The list is walked as a value and written back, which is what the
        in-place updates of the shared array amount to. The result is the
        reference recompute. */
    method RecomputeUsed(history: seq<Entry>)
      modifies this
      ensures currentBudgetIndex == old(currentBudgetIndex)
      ensures budgetItems == Recomputed(old(budgetItems), history)
    {
      var budgetData := budgetItems;
      var list := budgetData;
      var i := 0;
      while i < |list|
        invariant 0 <= i <= |list| == |budgetData|
        invariant forall j :: 0 <= j < i ==> list[j] == budgetData[j].(used := Some(0))
        invariant forall j :: i <= j < |list| ==> list[j] == budgetData[j]
        invariant currentBudgetIndex == old(currentBudgetIndex)
      {
        list := list[i := list[i].(used := Some(0))];
        i := i + 1;
      }
      assert list == ResetUsed(budgetData);
      var k := 0;
      while k < |history|
        invariant 0 <= k <= |history|
        invariant list == Replay(ResetUsed(budgetData), history[..k])
        invariant currentBudgetIndex == old(currentBudgetIndex)
      {
        var h := history[k];
        ghost var before := list;
        var b := FindIndex(list, h.budgetName);
        if b >= 0 {
          list := list[b := list[b].(used := Some(UsedOrZero(list[b]) + h.totalAmount))];
        }
        assert list == Credit(before, h.budgetName, h.totalAmount);
        ReplayStep(ResetUsed(budgetData), history, k);
        k := k + 1;
      }
      assert history[..k] == history;
      budgetItems := list;
      ReplayRecomputes(budgetData, history);
    }

    /** The `DOMContentLoaded` handler (js/app.js:8-27). With an endpoint it
        loads from the remote store, and its `catch`, meant to fall back to
        local data, is dead code: `loadInitialData` never throws. So a
        failed remote fetch leaves the list as it was instead of loading the
        local data. Without an endpoint it loads locally with the recompute. */
    method Startup(url: Option<string>, store: LedgerStore, remote: Completion<seq<Allocation>>,
                   table: ItemsTable, windowItems: Option<seq<Allocation>>)
      requires table.Valid()
      modifies this, table
      ensures currentBudgetIndex == old(currentBudgetIndex)
      ensures table.Valid()
      ensures var source := if Configured(url) then remote else store.LocalBudget();
        if LoadCompletes(!Configured(url), source, store.LocalHistory())
        then Refreshed(old(table.rows), table.rows, BudgetOptions(windowItems))
        else table.rows == old(table.rows)
      ensures Configured(url) && remote.Threw? ==> budgetItems == old(budgetItems)
      ensures Configured(url) && remote.Returned? ==> budgetItems == remote.value
      ensures !Configured(url) && store.LocalBudget().Threw? ==> budgetItems == old(budgetItems)
      ensures !Configured(url) && store.LocalBudget() == Returned([]) ==> budgetItems == []
      ensures var local := store.LocalBudget();
        !Configured(url) && local.Returned? && |local.value| > 0 ==>
          budgetItems == match store.LocalHistory()
                         case Threw(_) => local.value
                         case Returned(history) => Recomputed(local.value, history)
    {
      if Configured(url) {
        var threw := LoadInitialData(false, url, store, remote, table, windowItems);
        if threw {
          // js/app.js:18-21, `loadInitialData(true)`: unreachable
          assert false;
        }
      } else {
        var threw := LoadInitialData(true, url, store, remote, table, windowItems);
      }
    }

    /** The "next" chart button (js/app.js:125-129). */
    method NextChart()
      modifies this
      ensures budgetItems == old(budgetItems)
      ensures |budgetItems| == 0 ==> currentBudgetIndex == old(currentBudgetIndex)
      ensures |budgetItems| > 0 ==> currentBudgetIndex == NextIndex(old(currentBudgetIndex), |budgetItems|)
    {
      if |budgetItems| == 0 {
        return;
      }
      currentBudgetIndex := (currentBudgetIndex + 1) % |budgetItems|;
    }

    /** The "previous" chart button (js/app.js:119-123). */
    method PrevChart()
      modifies this
      ensures budgetItems == old(budgetItems)
      ensures |budgetItems| == 0 ==> currentBudgetIndex == old(currentBudgetIndex)
      ensures |budgetItems| > 0 ==> currentBudgetIndex == PrevIndex(old(currentBudgetIndex), |budgetItems|)
    {
      if |budgetItems| == 0 {
        return;
      }
      currentBudgetIndex := (currentBudgetIndex - 1 + |budgetItems|) % |budgetItems|;
    }

    /** `handleFileSelect` (js/app.js:79-100) once a file was or was not
        picked and its first sheet was read into rows: an accepted sheet
        replaces the list, every line with `used` set to 0; a rejected one
        only raises the alert. */
    method ImportBudget(picked: bool, sheetRows: seq<Allocation>) returns (alert: Option<string>)
      modifies this
      ensures currentBudgetIndex == old(currentBudgetIndex)
      ensures !picked ==> budgetItems == old(budgetItems) && alert == None
      ensures picked && |sheetRows| == 0 ==> budgetItems == old(budgetItems) && alert == Some("데이터가 없습니다.")
      ensures picked && |sheetRows| > 0 ==> budgetItems == ResetUsed(sheetRows) && alert == None
    {
      if !picked {
        return None;
      }
      var read := ReadBudgetFile(sheetRows);
      if read.Threw? {
        return Some(read.message);
      }
      budgetItems := ResetUsed(read.value);
      alert := None;
    }

    /** The "save budget" button (js/app.js:102-116): save the list, then
        reload with `loadInitialData()` (no recompute). Locally this is a
        round trip: the stored list is the list, and reloading gives it
        back. A failed save leaves everything as it was. */
    method SaveBudgetClicked(url: Option<string>, store: LedgerStore, saveRemote: Completion<Reply>,
                             loadRemote: Completion<seq<Allocation>>, table: ItemsTable,
                             windowItems: Option<seq<Allocation>>) returns (alert: string)
      requires table.Valid()
      modifies this, store, table
      ensures currentBudgetIndex == old(currentBudgetIndex)
      ensures table.Valid()
      ensures !Configured(url) ==> Refreshed(old(table.rows), table.rows, BudgetOptions(windowItems))
      ensures Configured(url) && (saveRemote.Threw? || loadRemote.Threw?) ==> table.rows == old(table.rows)
      ensures Configured(url) && saveRemote.Returned? && loadRemote.Returned? ==>
        Refreshed(old(table.rows), table.rows, BudgetOptions(windowItems))
      ensures store.history == old(store.history)
      ensures !Configured(url) ==>
        store.budget == Saved(old(budgetItems)) && budgetItems == old(budgetItems) &&
        alert == "예산이 성공적으로 저장되었습니다!"
      ensures Configured(url) ==> store.budget == old(store.budget)
      ensures Configured(url) && saveRemote.Threw? ==>
        budgetItems == old(budgetItems) && alert == "저장 실패: " + saveRemote.message
      ensures Configured(url) && saveRemote.Returned? ==>
        budgetItems == (if loadRemote.Returned? then loadRemote.value else old(budgetItems))
    {
      var saved := store.SaveBudget(url, budgetItems, saveRemote);
      if saved.Threw? {
        return "저장 실패: " + saved.message;
      }
      var threw := LoadInitialData(false, url, store, loadRemote, table, windowItems);
      alert := "예산이 성공적으로 저장되었습니다!";
    }

    /** The "submit" button (js/app.js:170-194). The request is the form's;
        after the user confirms, it is written to the store, and only once
        that write has returned is the first budget line whose key equals
        the request's `budgetName` credited with its total. A refused form,
        a cancelled confirmation or a write that throws changes no budget
        line. Since the form sets no `budgetName`, no line with a key is
        ever credited. */
    method SubmitRequest(table: ItemsTable, docName: string, date: string, confirmed: bool,
                         url: Option<string>, store: LedgerStore, remote: Completion<Reply>)
      returns (outcome: SubmitOutcome)
      requires AllTextsValid(table.rows)
      modifies this, store
      ensures currentBudgetIndex == old(currentBudgetIndex)
      ensures store.budget == old(store.budget)
      ensures var f := FormSpec(table.rows, docName, date);
        && (f.Rejected? ==> outcome == FormRefused(f.error))
        && (f.Form? && !confirmed ==> outcome == Cancelled)
        && (f.Form? && confirmed && Configured(url) ==> (outcome.Submitted? <==> remote.Returned?))
        && (f.Form? && confirmed && !Configured(url) ==> (outcome.Submitted? <==> old(store.LocalHistory()).Returned?))
        && (outcome.Submitted? ==> f.Form? && budgetItems == Credit(old(budgetItems), f.entry.budgetName, f.entry.totalAmount))
        && (outcome.Submitted? && !Configured(url) ==> store.history == Saved(old(store.LocalHistory()).value + [f.entry]))
      ensures !outcome.Submitted? ==> budgetItems == old(budgetItems) && store.history == old(store.history)
      ensures Configured(url) ==> store.history == old(store.history)
      ensures forall j :: 0 <= j < |old(budgetItems)| && old(budgetItems)[j].key.Some? ==> budgetItems[j] == old(budgetItems)[j]
    {
      var form := table.GetExpenditureFormData(docName, date);
      if form.Rejected? {
        return FormRefused(form.error);
      }
      if !confirmed {
        return Cancelled;
      }
      var sent := store.SubmitExpenditure(url, form.entry, remote);
      if sent.Threw? {
        return Failed("제출 실패: " + sent.message);
      }
      FormHasNoBudgetName(table.rows, docName, date);
      var key, amount := form.entry.budgetName, form.entry.totalAmount;
      var items := budgetItems;
      var budgetIndex := FindIndex(items, key);
      if budgetIndex >= 0 {
        items := items[budgetIndex := items[budgetIndex].(used := Some(UsedOrZero(items[budgetIndex]) + amount))];
      }
      assert items == Credit(budgetItems, key, amount);
      CreditFirstMatchOnly(budgetItems, key, amount);
      budgetItems := items;
      outcome := Submitted;
    }
  }
}
