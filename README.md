# Expense report: a verified model of its core

The app keeps a list of budget lines (allocations keyed by their `산출내역`
text, with an amount `예산액` and a consumed amount `used`) and a history of
expenditure requests drawn against them. This project models, in Dafny, the
sequential logic underneath the browser code:

- the session state of `js/app.js` (`AppState`): the initial load and its
  choice between the remote endpoint and local storage, the recompute of
  every `used` from the local history, the startup sequence, the chart
  navigation, the import, save and submit handlers;
- the request form of `js/ui.js` (`ItemsTable`): the comma-grouped number
  codec, row totals, the grand total, delete mode, the budget dropdown
  refresh and the extraction of a request from the rows; the chart's
  used/remain arithmetic;
- the local ledger store of `js/api.js` (`LedgerStore`): the branches taken
  when no endpoint is configured, and the guard of `testConnection`;
- the request sheet of `js/excel.js`: the table handed to `aoa_to_sheet`,
  the header and border loops over its cells, the file name, and the
  check on an imported sheet.

Modules: `Common` (Option, awaited outcomes, the endpoint test),
`Records` (allocations, items, requests), `NumberCodec`, `ItemForm`,
`BudgetChart`, `Store`, `Reconcile` (first-match crediting and the
reference recompute), `RequestSheet`, `App`.

Modelling choices, where the code is followed closely:

- Keys are `Option<string>` on both sides and JavaScript `===` is option
  equality. The request built at `js/ui.js:339-344` has no `budgetName`,
  so it is `None`, and every match on it (`js/app.js:47, 164, 181`) can
  only find an allocation that has no `산출내역`.
- Consumption is aggregated per request (`totalAmount`), not per line
  item, even though each item carries its own `budgetName`.
- Only the first allocation with a key is ever credited; later ones
  sharing the key stay at 0 after a recompute.
- The recompute runs only with `forceLocal` set and a non-empty list.
  Otherwise the fetched `used` values are installed as they came.
- Requests have no status and the store has no update or delete; nothing
  validates that a `budgetName` names an existing allocation.
- `loadInitialData` catches every error itself, so the startup fallback
  to local data (`js/app.js:18-21`) is unreachable; `Startup` records this
  with `assert false` in that branch. A failed remote fetch at startup
  therefore leaves the list empty rather than loading local data.
- `app.js` declares `appState` with `const`, which does not create
  `window.appState`; `ui.js` reads `window.appState` for the dropdown
  options and the chart index. Both are inputs here (`Option`), so the
  model covers the page as written (`None`) and the evidently intended
  setup (`Some`).
- Awaited remote calls are inputs of type `Completion<T>` (a value or a
  thrown message); the configured URL is an `Option<string>` input.
- Amounts are unbounded non-negative integers, and the number inputs are
  modelled on text made of digits and commas. `formatNumberInput` writes
  back such text whenever the stripped input is not a number or is made
  of digits only; signed or decimal text that `Number` accepts is written
  back as `Number` renders it, which the model does not follow (see
  "Left out").
- A dropdown refresh (`updateBudgetDropdown`) runs at the end of every
  completed `loadInitialData`, so loading at startup and reloading after
  a save re-apply the offered options to every row's select.

## Model

| member | source | states |
|---|---|---|
| NumberCodec.StripCommas | js/ui.js:224 | removing commas from number text leaves only digits; digit text is unchanged |
| NumberCodec.DigitsOnly | js/ui.js:227 | the result is all digits, and digit text is unchanged |
| NumberCodec.Group | js/ui.js:230 | `toLocaleString()` of a non-negative integer is non-empty number text |
| NumberCodec.Format | js/ui.js:223-234 | the text written back is digits and commas, and it is empty exactly when the typed text has no digit (a leading sign is dropped; see "Left out") |
| NumberCodec.Parse | js/ui.js:236-239 | '' reads as 0 and any other number text as the value of its digits, the commas carrying no value; `ParseGroup` and `ParseFormat` are its round trips |
| NumberCodec.StripCommasNumberText | js/ui.js:238 | on digit-and-comma text, removing the commas is keeping the digits |
| NumberCodec.ParseGroup | js/ui.js:230-239 | parsing the grouped text of n gives n back |
| NumberCodec.ParseFormat | js/ui.js:223-239 | parse after format gives the number the typed digits denote |
| NumberCodec.ParseFormatDigits | js/ui.js:223-239 | for a digit string, parse after format gives its numeric value |
| NumberCodec.FormatIdempotent | js/ui.js:223-234 | formatting already formatted text changes nothing |
| NumberCodec.ValueConcat | js/ui.js:238 | the value of concatenated digit strings is the first shifted by the length of the second plus the second |
| NumberCodec.DigitsOnlyStripCommas | js/ui.js:224-227 | dropping non-digits after stripping commas is dropping non-digits |
| ItemForm.ItemsTable.AddItemRow | js/ui.js:169-196 | one blank row is appended and the table stays valid |
| ItemForm.ItemsTable.AddInitialRows | js/ui.js:161-167 | the table becomes exactly five blank rows |
| ItemForm.ItemsTable.FormatNumberInput | js/ui.js:223-234 | only the chosen input of the chosen row changes, to the formatted text |
| ItemForm.ItemsTable.CalculateRowTotal | js/ui.js:265-272 | only the row's cached total changes, to quantity times price without shipping |
| ItemForm.ItemsTable.CalculateGrandTotal | js/ui.js:274-289 | the sum over all rows, named or not, of cached total plus shipping when checked |
| ItemForm.ItemsTable.InputNumber | js/ui.js:199-206 | the typed text is formatted in place, the row total is re-cached, other rows are unchanged and the table stays valid |
| ItemForm.ItemsTable.ToggleShipping | js/ui.js:208-220 | only the row's box changes; unchecking also clears its shipping text |
| ItemForm.ItemsTable.ToggleDeleteMode | js/ui.js:241-263 | entering removes nothing; confirming keeps exactly the unchecked rows in order and leaves delete mode |
| ItemForm.ItemsTable.UpdateBudgetDropdown | js/ui.js:90-106 | each select keeps its value iff it is non-empty and still offered, else goes to ''; nothing else changes |
| ItemForm.ItemsTable.GetExpenditureFormData | js/ui.js:291-345 | the result is `FormSpec`: no document name, then a named row without budget, then no named rows are refused in that order; otherwise the named rows' items, the grand total and no `budgetName` |
| ItemForm.BudgetOptions | js/ui.js:78-87 | the first option is ''; without `window.appState` every option value is '' |
| ItemForm.RestoreSelection | js/ui.js:97-104 | the value is kept iff it is '' or among the options; otherwise it becomes '' |
| ItemForm.Unchecked | js/ui.js:252-255 | no kept row is checked |
| ItemForm.UnnamedRows | js/ui.js:303-304 | the rows skipped by the form are all nameless |
| ItemForm.NamedItemsEmpty | js/ui.js:334-337 | a table yields no items iff no row has a name |
| ItemForm.NamedItemsShape | js/ui.js:312-331 | every item has a name, a budget, `itemTotal = qty * price` and `total = itemTotal + shipping` |
| ItemForm.NamedItemsConcat | js/ui.js:302-332 | items follow row order block by block |
| ItemForm.FormTotalAccounting | js/ui.js:302-342 | the request total is its items' totals plus the charges of the nameless rows it skipped |
| ItemForm.GrandTotalConcat | js/ui.js:274-289 | the grand total is additive over blocks of rows |
| ItemForm.ShippingToggleChangesTotal | js/ui.js:208-220 | unchecking a row's shipping lowers the grand total by exactly that row's shipping |
| ItemForm.DeletePartitionsRows | js/ui.js:252-255 | kept and removed rows together are the table, as a multiset and by count |
| ItemForm.UncheckedConcat | js/ui.js:252-255 | deletion preserves the order of the remaining rows |
| ItemForm.UncheckedValid | js/ui.js:252-261 | deletion keeps every remaining row's cached total current |
| ItemForm.UnselectedBudgetsBlockForms | js/ui.js:306-310 | with every select on '', any named row makes the form refuse for a missing budget |
| ItemForm.RefreshedBlocksForms | js/ui.js:90-106 | after a dropdown refresh without `window.appState` every select is on '', so any table with a named row is refused for a missing budget |
| ItemForm.FormHasNoBudgetName | js/ui.js:339-344 | a request the form yields has no top-level `budgetName` |
| BudgetChart.RenderBudgetChart | js/ui.js:116-132 | the message shows iff the index has no item; otherwise position i+1 of n, used is `used` or 0, used + remain is the amount, remain < 0 iff overspent |
| Reconcile.FindIndex | js/app.js:181 | -1 when no allocation has the key, else the first index that has it |
| Reconcile.Credit | js/app.js:181-185 | same length, and nothing but `used` changes |
| Reconcile.CreditFirstMatchOnly | js/app.js:181-185 | only the first allocation with the key gains the amount; all others are unchanged; with no match the list is unchanged |
| Reconcile.ResetUsed | js/app.js:45 | every `used` becomes 0 and nothing else changes |
| Reconcile.RecomputedStep | js/app.js:181-185 | crediting a request to the recomputed list equals recomputing with that request appended |
| Reconcile.ReplayRecomputes | js/app.js:45-49 | reset then credit each request in order gives the reference recompute |
| Reconcile.UnmatchedEntrySkipped | js/app.js:47-48 | a request whose `budgetName` names no allocation changes nothing |
| Reconcile.LaterDuplicateStaysZero | js/app.js:47 | a later allocation sharing a key is recomputed to 0 |
| Reconcile.EntrySumConcat | js/app.js:46-49 | the credited sum is additive over blocks of history |
| Reconcile.EntrySumPermutation | js/app.js:46-49 | the credited sum does not depend on the order of the history |
| Reconcile.RecomputedIgnoresOrder | js/app.js:46-49 | the recompute does not depend on the order of the history |
| Reconcile.EntrySumNoMatch | js/app.js:47 | requests naming another key contribute nothing |
| Reconcile.KeyedLinesStayZero | js/ui.js:339-344 | with form-built requests only, every keyed allocation is recomputed to 0 |
| Store.ReadList | js/api.js:45-48 | a stored list is returned, nothing stored gives [], text that does not parse throws |
| Store.TestConnection | js/api.js:5-16 | without an endpoint it throws; otherwise it is the remote call |
| Store.LedgerStore.SaveBudget | js/api.js:18-41 | locally the budget record is replaced wholesale and reads back as the argument, `{success: true}`; history is untouched; with a URL nothing local changes |
| Store.LedgerStore.GetBudgetData | js/api.js:43-52 | locally the stored list or []; corrupt text throws; with a URL the remote answer |
| Store.LedgerStore.SubmitExpenditure | js/api.js:54-74 | locally the request is appended to the history's end; the budget record is untouched; an unreadable history throws before writing |
| RequestSheet.ReadBudgetFile | js/excel.js:29-34 | rejects with "데이터가 없습니다." iff the sheet has no rows, else passes them on unchanged |
| RequestSheet.BuildRequestRows | js/excel.js:59-72 | row 0 is the six headers, row k+1 is item k's serial, name, spec, qty, price and total, all rows six wide |
| RequestSheet.RequestFileName | js/excel.js:128 | the name ends in ".xlsx" and its stem is the document name, or "품의서" when that is empty |
| RequestSheet.Worksheet.StyleHeaderRow | js/excel.js:88-107 | existing header cells get the header style, missing ones are skipped, nothing else changes |
| RequestSheet.Worksheet.BorderCell | js/excel.js:112-121 | one cell is created as '' if missing and gains the border |
| RequestSheet.Worksheet.BorderDataCells | js/excel.js:109-123 | the data region is filled with cells, existing values kept and bordered; nothing outside it changes |
| RequestSheet.GenerateRequestExcel | js/excel.js:50-130 | each data cell holds its item value with a border, each header cell holds its header with the header style, the file name is as above |
| App.NextIndex | js/app.js:127 | the index stays in [0, n) |
| App.PrevIndex | js/app.js:121 | the index stays in [0, n) |
| App.PrevNextInverse | js/app.js:119-129 | next and previous undo each other |
| App.NextTimesShift | js/app.js:125-129 | k presses of next move the index k places round the cycle |
| App.NextCycle | js/app.js:125-129 | n presses of next on n lines return to the starting line |
| App.AppState.LoadInitialData | js/app.js:29-60 | never throws; a failed read leaves the list; otherwise the list as read, recomputed from the local history only with `forceLocal` and a non-empty list; the row selects are refreshed exactly when the try block runs to its end |
| App.AppState.RecomputeUsed | js/app.js:43-49 | the list becomes the reference recompute of the history |
| App.AppState.Startup | js/app.js:7-27 | with a URL, the remote list or, after a failure, the list unchanged (the fallback is unreachable); without, the local load with recompute; the selects are refreshed exactly when that load completes |
| App.AppState.NextChart | js/app.js:125-129 | with n = 0 nothing changes, else the index becomes `NextIndex` |
| App.AppState.PrevChart | js/app.js:119-123 | with n = 0 nothing changes, else the index becomes `PrevIndex` |
| App.AppState.ImportBudget | js/app.js:79-100 | no file changes nothing; an empty sheet only alerts; otherwise the sheet's lines with `used` 0 |
| App.AppState.SaveBudgetClicked | js/app.js:102-116 | locally the list is stored and reloaded unchanged; a failed save changes nothing; after a remote save the list is the remote reload; the selects are refreshed after every completed reload and untouched otherwise |
| App.AppState.SubmitRequest | js/app.js:170-194 | refused forms, cancelled confirmations and failed writes change no allocation; a submit credits the first allocation keyed by the request's `budgetName` with its total and never touches a keyed line |

## Left out

- DOM rendering, tabs, loading modal, alerts' display, `confirm` (an input
  `confirmed`), `location.reload` after a submit, clipboard and shared-mode
  URL handling: user interface with no state of the core.
- Chart.js drawing: `RenderBudgetChart` stops at the label and the two
  amounts.
- The remote branches of `js/api.js` (`fetch`, `FormData`,
  `response.json()`): each remote call is an input that returns or throws.
- `js/config.js` is not part of this model; the configured URL is an input.
- XLSX internals (`read`, `sheet_to_json`, `aoa_to_sheet`, `encode_cell`,
  `decode_range`, `writeFile`, column widths, colours and fonts) and
  `FileReader`: the parsed sheet is an input, `aoa_to_sheet` is taken to
  place one unstyled cell per value, and style objects are reduced to
  "header look" and "border".
- `downloadTemplate` and the empty `generateRequestFile` stub, which the
  "generate Excel" button (`js/app.js:159-167`) calls: neither has logic.
- JSON serialisation of local storage: stored records are sequences, and
  text that does not parse is an error.
- NumberCodec.Format: text that `Number` accepts but that is not made of
  digits only (a leading sign as in "-5" or "-0", a decimal point, an
  exponent, surrounding whitespace, hex) is written back by
  `js/ui.js:229-230` as `Number(value).toLocaleString()`, so "-5" stays
  "-5"; the model drops every non-digit instead and writes "5".
- NumberCodec.Parse: requires digit-and-comma text, so signed, decimal or
  other text reaching `parseLocaleNumber` at `js/ui.js:266-267, 282` and
  `312-318` is outside the model, and row and grand totals here are never
  negative or fractional. NaN, floating point, values above 2^53 and
  locale variance are left out with it.
- Allocation amounts are integers: a missing or non-numeric `예산액`,
  which `renderBudgetChart` reads as 0 (`js/ui.js:130`), cannot be
  represented.
- The global shipping toggle and shipping input of `js/app.js:143-156`,
  whose values the grand total never reads, and the delegated input
  handler of `js/app.js:136-141`, which repeats the row and grand totals
  the per-input handler already computes.
- Typing into the name, spec, vendor and date fields, and picking a
  budget option: the rows' texts and selections are inputs of
  `GetExpenditureFormData`, and a row's selection is not tied to the
  options its select last received. Without `window.appState` every
  offered option is '' (`BudgetOptions`), so any pick is ''.
- The in-place sharing between `budgetData` and `appState.budgetItems`:
  `RecomputeUsed` works on the list as a value and writes it back.
- `renderBudgetPreview`, `renderHistory` and `viewHistoryItem`: display
  only.
- Overlapping async handlers and out-of-order responses: concurrency.
