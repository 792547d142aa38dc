/** The doughnut chart of one budget line (`renderBudgetChart`, js/ui.js:108-159). */
module BudgetChart {
  import opened Common
  import opened Records

  /** What the chart area shows: the "예산 항목이 없습니다." message, or the
      label `${산출내역} (${position}/${count})` with the used and
      remaining amounts. */
  datatype ChartView =
    | NoItemMessage
    | Doughnut(key: Option<string>, position: nat, count: nat, used: int, remain: int)

  /** `renderBudgetChart(items)`. The index shown is read from
      `window.appState.currentBudgetIndex`, 0 when `window.appState` is
      missing; an index with no item shows the message. `used` is
      `Number(used) || 0` and `remain` is `예산액 - used`, negative when the
      line is overspent. */
  function RenderBudgetChart(items: seq<Allocation>, windowIndex: Option<int>): (v: ChartView)
    ensures var i := windowIndex.GetOr(0);
      && (v.NoItemMessage? <==> !(0 <= i < |items|))
      && (v.Doughnut? ==>
            && v.key == items[i].key && v.position == i + 1 && v.count == |items|
            && v.used == UsedOrZero(items[i])
            && v.used + v.remain == items[i].amount
            && (v.remain < 0 <==> UsedOrZero(items[i]) > items[i].amount))
  {
    var i := windowIndex.GetOr(0);
    if !(0 <= i < |items|) then NoItemMessage
    else
      var item := items[i];
      var total := item.amount;
      var used := UsedOrZero(item);
      Doughnut(item.key, i + 1, |items|, used, total - used)
  }
}
