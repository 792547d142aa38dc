/** The ledger store of js/api.js: with no endpoint configured every
    operation reads and writes two records in the browser's local storage,
    `local_budget_data` (the budget lines) and `local_history` (the submitted
    requests); with an endpoint it makes one remote call, whose outcome is an
    input here. */
module Store {
  import opened Common
  import opened Records

  /** What `localStorage.getItem(key)` holds, as `JSON.parse` sees it:
      nothing (null or ''), a stored list, or text that does not parse. */
  datatype Stored<T> = Absent | Saved(list: seq<T>) | Corrupt

  /** `JSON.parse(localStorage.getItem(key) || '[]')`, which is also what
      `data ? JSON.parse(data) : []` gives: the stored list, `[]` when nothing
      is stored, and a thrown error when the text does not parse. */
  function ReadList<T>(s: Stored<T>): (r: Completion<seq<T>>)
    ensures r.Returned? <==> !s.Corrupt?
    ensures s.Absent? ==> r.value == []
    ensures s.Saved? ==> r.value == s.list
  {
    match s
    case Absent => Returned([])
    case Saved(list) => Returned(list)
    case Corrupt => Threw(JsonParseError)
  }

  /** `testConnection` (js/api.js:5-16): with no endpoint it throws rather
      than falling back to the local store; otherwise the result is that of
      the remote `test` call. */
  method TestConnection(url: Option<string>, remote: Completion<Reply>) returns (r: Completion<Reply>)
    ensures !Configured(url) ==> r == Threw("API URL이 설정되지 않았습니다.")
    ensures Configured(url) ==> r == remote
  {
    if !Configured(url) {
      return Threw("API URL이 설정되지 않았습니다.");
    }
    r := remote;
  }

  class LedgerStore {
    /** `localStorage['local_budget_data']` */
    var budget: Stored<Allocation>
    /** `localStorage['local_history']` */
    var history: Stored<Entry>

    constructor (budget: Stored<Allocation>, history: Stored<Entry>)
      ensures this.budget == budget && this.history == history
    {
      this.budget := budget;
      this.history := history;
    }

    /** The budget lines as a local read sees them. */
    function LocalBudget(): Completion<seq<Allocation>>
      reads this
    {
      ReadList(budget)
    }

    /** The request history as a local read sees it. */
    function LocalHistory(): Completion<seq<Entry>>
      reads this
    {
      ReadList(history)
    }

    /** `saveBudget` (js/api.js:18-41). Locally it replaces the stored budget
        list wholesale and answers `{success: true}`, leaving the history
        alone; with an endpoint nothing local changes. */
    method SaveBudget(url: Option<string>, items: seq<Allocation>, remote: Completion<Reply>) returns (r: Completion<Reply>)
      modifies this
      ensures history == old(history)
      ensures !Configured(url) ==> budget == Saved(items) && r == Returned(Reply(true))
      ensures !Configured(url) ==> LocalBudget() == Returned(items)
      ensures Configured(url) ==> budget == old(budget) && r == remote
    {
      if !Configured(url) {
        budget := Saved(items);
        return Returned(Reply(true));
      }
      r := remote;
    }

    /** `getBudgetData` (js/api.js:43-52). Locally: the stored list, or `[]`
        when nothing is stored; with an endpoint, the remote answer. */
    method GetBudgetData(url: Option<string>, remote: Completion<seq<Allocation>>) returns (r: Completion<seq<Allocation>>)
      ensures !Configured(url) && budget.Absent? ==> r == Returned([])
      ensures !Configured(url) && budget.Saved? ==> r == Returned(budget.list)
      ensures !Configured(url) && budget.Corrupt? ==> r.Threw?
      ensures Configured(url) ==> r == remote
    {
      if !Configured(url) {
        r := ReadList(budget);
        return;
      }
      r := remote;
    }

    /** `submitExpenditure` (js/api.js:54-74). Locally: read the history,
        push the request at its end, write it back and answer
        `{success: true}`; a history that does not parse throws before
        anything is written. With an endpoint nothing local changes. */
    method SubmitExpenditure(url: Option<string>, entry: Entry, remote: Completion<Reply>) returns (r: Completion<Reply>)
      modifies this
      ensures budget == old(budget)
      ensures !Configured(url) && old(LocalHistory()).Returned? ==>
        history == Saved(old(LocalHistory()).value + [entry]) && r == Returned(Reply(true))
      ensures !Configured(url) && old(LocalHistory()).Threw? ==>
        history == old(history) && r.Threw?
      ensures Configured(url) ==> history == old(history) && r == remote
    {
      if !Configured(url) {
        var read := ReadList(history);
        if read.Threw? {
          return Threw(read.message);
        }
        var list := read.value;
        list := list + [entry];
        history := Saved(list);
        return Returned(Reply(true));
      }
      r := remote;
    }
  }
}
