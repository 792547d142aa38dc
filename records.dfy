/** The records the app keeps: budget lines, and the expenditure requests drawn against them. */
module Records {
  import opened Common

  /** One budget line, as a row of the imported budget sheet. `detail` is the
      `세부항목` column, `costCategory` is `원가통계비목`, `key` is `산출내역`
      (the label requests are matched against; undefined when the column is
      missing), `amount` is `예산액` and `used` the consumed amount (undefined
      until something sets it). */
  datatype Allocation = Allocation(
    detail: string,
    costCategory: string,
    key: Option<string>,
    amount: int,
    used: Option<int>)

  /** One line item of an expenditure request, as the request form builds it. */
  datatype Item = Item(
    budgetName: string,
    name: string,
    spec: string,
    qty: nat,
    price: nat,
    itemTotal: int,
    shipping: nat,
    total: int,
    vendor: string)

  /** An expenditure request as submitted and kept in the history. `budgetName`
      is the top-level field the reconciliation matches on; the request form
      never sets it, so on every request the app builds it is undefined. */
  datatype Entry = Entry(
    docName: string,
    items: seq<Item>,
    totalAmount: int,
    date: string,
    budgetName: Option<string>)

  /** `(b.used || 0)`: the consumed amount, 0 while it is undefined. */
  function UsedOrZero(a: Allocation): int {
    a.used.GetOr(0)
  }
}
