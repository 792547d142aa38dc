/** How the consumed amount of each budget line follows from the request
    history (js/app.js:42-50 and 181-185). Requests are matched to budget
    lines by comparing the request's `budgetName` with the line's `산출내역`
    using `===`; only the first line with that key is ever credited. */
module Reconcile {
  import opened Common
  import opened Records

  /** `items.findIndex(b => b['산출내역'] === key)`: the index of the first
      budget line keyed `key`, or -1 when there is none. */
  function FindIndex(items: seq<Allocation>, key: Option<string>): (r: int)
    ensures -1 <= r < |items|
    ensures 0 <= r ==> items[r].key == key
    ensures forall j :: 0 <= j < |items| && (r < 0 || j < r) ==> items[j].key != key
  {
    if |items| == 0 then -1
    else if items[0].key == key then 0
    else
      var r := FindIndex(items[1..], key);
      if r < 0 then -1 else r + 1
  }

  /** `b.used = (b.used || 0) + amount` on the first line keyed `key`; with
      no such line the list is left as it is. */
  function Credit(items: seq<Allocation>, key: Option<string>, amount: int): (r: seq<Allocation>)
    ensures |r| == |items|
    ensures forall j :: 0 <= j < |items| ==> r[j] == items[j].(used := r[j].used)
  {
    var i := FindIndex(items, key);
    if i < 0 then items else items[i := items[i].(used := Some(UsedOrZero(items[i]) + amount))]
  }

  /** `budgetData.forEach(b => b.used = 0)`. */
  function ResetUsed(items: seq<Allocation>): (r: seq<Allocation>)
    ensures |r| == |items|
    ensures forall j :: 0 <= j < |items| ==> r[j] == items[j].(used := Some(0))
  {
    seq(|items|, j requires 0 <= j < |items| => items[j].(used := Some(0)))
  }

  /** `history.forEach(h => ...)`: every request credited in turn, in history order. */
  function Replay(items: seq<Allocation>, history: seq<Entry>): seq<Allocation>
  {
    if history == [] then items
    else
      var e := history[|history| - 1];
      Credit(Replay(items, history[..|history| - 1]), e.budgetName, e.totalAmount)
  }

  /** The sum of `totalAmount` over the requests whose `budgetName` is `key`. */
  function EntrySum(history: seq<Entry>, key: Option<string>): int
  {
    if history == [] then 0
    else
      var e := history[|history| - 1];
      EntrySum(history[..|history| - 1], key) + (if e.budgetName == key then e.totalAmount else 0)
  }

  /** The reference definition of the local recompute: every line gets a
      defined `used`; the first line with a given key gets the sum of the
      requests naming that key, and every other line gets 0. */
  function Recomputed(items: seq<Allocation>, history: seq<Entry>): (r: seq<Allocation>)
    ensures |r| == |items|
  {
    seq(|items|, j requires 0 <= j < |items| =>
      items[j].(used := Some(if FindIndex(items, items[j].key) == j then EntrySum(history, items[j].key) else 0)))
  }

  /** FindIndex looks at the keys only. */
  lemma {:induction false} FindIndexSameKeys(a: seq<Allocation>, b: seq<Allocation>, key: Option<string>)
    requires |a| == |b|
    requires forall j :: 0 <= j < |a| ==> a[j].key == b[j].key
    ensures FindIndex(a, key) == FindIndex(b, key)
  {
    if |a| > 0 && a[0].key != key {
      FindIndexSameKeys(a[1..], b[1..], key);
    }
  }

  /** Only the first line with the key is credited, by exactly `amount`;
      every other line is left unchanged, and with no line keyed `key` the
      whole list is unchanged (js/app.js:181-185). */
  lemma CreditFirstMatchOnly(items: seq<Allocation>, key: Option<string>, amount: int)
    ensures var r := Credit(items, key, amount);
      && (forall j :: 0 <= j < |items| && items[j].key != key ==> r[j] == items[j])
      && (forall j :: 0 <= j < |items| && items[j].key == key ==>
            if FindIndex(items, key) == j then UsedOrZero(r[j]) == UsedOrZero(items[j]) + amount
            else r[j] == items[j])
      && ((forall j :: 0 <= j < |items| ==> items[j].key != key) ==> r == items)
  {
  }

  /** One more request in the history changes the reference recompute
      exactly as crediting that request to the recomputed list does. This is
      why the optimistic patch after a submit (js/app.js:181-185) agrees with
      the full recompute on the next local load (js/app.js:45-49). */
  lemma RecomputedStep(items: seq<Allocation>, history: seq<Entry>, e: Entry)
    ensures Credit(Recomputed(items, history), e.budgetName, e.totalAmount) == Recomputed(items, history + [e])
  {
    var c := Credit(Recomputed(items, history), e.budgetName, e.totalAmount);
    var r' := Recomputed(items, history + [e]);
    forall j | 0 <= j < |items|
      ensures c[j] == r'[j]
    {
      RecomputedStepAt(items, history, e, j);
    }
    assert |c| == |r'|;
  }

  /** RecomputedStep at one budget line. */
  lemma RecomputedStepAt(items: seq<Allocation>, history: seq<Entry>, e: Entry, j: nat)
    requires j < |items|
    ensures Credit(Recomputed(items, history), e.budgetName, e.totalAmount)[j] == Recomputed(items, history + [e])[j]
  {
    var r := Recomputed(items, history);
    var h := history + [e];
    assert h[..|h| - 1] == history;
    FindIndexSameKeys(r, items, e.budgetName);
    var i := FindIndex(items, e.budgetName);
    var c := Credit(r, e.budgetName, e.totalAmount);
    var r' := Recomputed(items, h);
    var k := items[j].key;
    var first := FindIndex(items, k) == j;
    assert EntrySum(h, k) == EntrySum(history, k) + (if e.budgetName == k then e.totalAmount else 0);
    assert r[j] == items[j].(used := Some(if first then EntrySum(history, k) else 0));
    assert r'[j] == items[j].(used := Some(if first then EntrySum(h, k) else 0));
    if j == i {
      assert first;
      assert c[j] == r[j].(used := Some(UsedOrZero(r[j]) + e.totalAmount));
    } else {
      assert c[j] == r[j];
      if k == e.budgetName {
        assert !first;
      }
    }
  }

  /** Replaying one more request of the history credits it. */
  lemma ReplayStep(items: seq<Allocation>, history: seq<Entry>, k: nat)
    requires k < |history|
    ensures Replay(items, history[..k + 1]) == Credit(Replay(items, history[..k]), history[k].budgetName, history[k].totalAmount)
  {
    assert history[..k + 1][..k] == history[..k];
  }

  /** The loops at js/app.js:45-49 compute the reference recompute: reset
      every `used` to 0, then credit each request of the history in turn. */
  lemma {:induction false} ReplayRecomputes(items: seq<Allocation>, history: seq<Entry>)
    ensures Replay(ResetUsed(items), history) == Recomputed(items, history)
  {
    if history == [] {
      assert Replay(ResetUsed(items), history) == ResetUsed(items);
    } else {
      var h := history[..|history| - 1];
      var e := history[|history| - 1];
      ReplayRecomputes(items, h);
      RecomputedStep(items, h, e);
      assert h + [e] == history;
    }
  }

  /** A request whose `budgetName` names no line changes nothing (js/app.js:47-48). */
  lemma UnmatchedEntrySkipped(items: seq<Allocation>, history: seq<Entry>, e: Entry)
    requires forall j :: 0 <= j < |items| ==> items[j].key != e.budgetName
    ensures Recomputed(items, history + [e]) == Recomputed(items, history)
  {
    RecomputedStep(items, history, e);
    FindIndexSameKeys(Recomputed(items, history), items, e.budgetName);
  }

  /** A line that shares its key with an earlier line always ends at 0. */
  lemma LaterDuplicateStaysZero(items: seq<Allocation>, history: seq<Entry>, i: nat, j: nat)
    requires i < j < |items| && items[i].key == items[j].key
    ensures Recomputed(items, history)[j].used == Some(0)
  {
  }

  lemma {:induction false} EntrySumConcat(a: seq<Entry>, b: seq<Entry>, key: Option<string>)
    ensures EntrySum(a + b, key) == EntrySum(a, key) + EntrySum(b, key)
  {
    if b == [] {
      assert a + b == a;
    } else {
      EntrySumConcat(a, b[..|b| - 1], key);
      assert (a + b)[..|a + b| - 1] == a + b[..|b| - 1];
    }
  }

  /** Taking one request out of the middle of a history takes its share out of the sum. */
  lemma EntrySumRemove(h: seq<Entry>, j: nat, key: Option<string>)
    requires j < |h|
    ensures EntrySum(h, key) == EntrySum(h[..j] + h[j + 1..], key) + EntrySum([h[j]], key)
  {
    assert h == h[..j] + [h[j]] + h[j + 1..];
    EntrySumConcat(h[..j] + [h[j]], h[j + 1..], key);
    EntrySumConcat(h[..j], [h[j]], key);
    EntrySumConcat(h[..j], h[j + 1..], key);
  }

  lemma MultisetRemove(h: seq<Entry>, j: nat)
    requires j < |h|
    ensures multiset(h[..j] + h[j + 1..]) == multiset(h) - multiset{h[j]}
  {
    assert h == h[..j] + [h[j]] + h[j + 1..];
  }

  /** The per-key sum depends on which requests the history holds, not on their order. */
  lemma {:induction false} EntrySumPermutation(h1: seq<Entry>, h2: seq<Entry>, key: Option<string>)
    requires multiset(h1) == multiset(h2)
    ensures EntrySum(h1, key) == EntrySum(h2, key)
    decreases |h1|
  {
    if h1 == [] {
      assert |h2| == |multiset(h2)| == 0;
    } else {
      var n := |h1| - 1;
      var e := h1[n];
      assert e in multiset(h2);
      assert e in h2;
      var j :| 0 <= j < |h2| && h2[j] == e;
      var rest := h2[..j] + h2[j + 1..];
      MultisetRemove(h2, j);
      MultisetRemove(h1, n);
      assert h1[..n] + h1[n + 1..] == h1[..n];
      EntrySumPermutation(h1[..n], rest, key);
      EntrySumRemove(h1, n, key);
      EntrySumRemove(h2, j, key);
    }
  }

  /** The recompute does not depend on the order of the history (js/app.js:46-49). */
  lemma RecomputedIgnoresOrder(items: seq<Allocation>, h1: seq<Entry>, h2: seq<Entry>)
    requires multiset(h1) == multiset(h2)
    ensures Recomputed(items, h1) == Recomputed(items, h2)
  {
    forall j | 0 <= j < |items|
      ensures Recomputed(items, h1)[j] == Recomputed(items, h2)[j]
    {
      EntrySumPermutation(h1, h2, items[j].key);
    }
  }

  lemma {:induction false} EntrySumNoMatch(history: seq<Entry>, key: Option<string>)
    requires forall k :: 0 <= k < |history| ==> history[k].budgetName != key
    ensures EntrySum(history, key) == 0
  {
    if history != [] {
      EntrySumNoMatch(history[..|history| - 1], key);
    }
  }

  /** Requests built by the form carry no top-level `budgetName`, so they match
      only a budget line whose `산출내역` is missing: every keyed line is
      recomputed to 0 whatever the history holds (js/app.js:47, ui.js:339-344). */
  lemma KeyedLinesStayZero(items: seq<Allocation>, history: seq<Entry>)
    requires forall k :: 0 <= k < |history| ==> history[k].budgetName.None?
    ensures forall j :: 0 <= j < |items| && items[j].key.Some? ==> Recomputed(items, history)[j].used == Some(0)
  {
    forall j | 0 <= j < |items| && items[j].key.Some?
      ensures Recomputed(items, history)[j].used == Some(0)
    {
      EntrySumNoMatch(history, items[j].key);
    }
  }
}
