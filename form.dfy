/** The request form's item table (js/ui.js): rows of inputs, their cached
    row totals, the grand total, delete mode, the budget dropdowns and the
    extraction of an expenditure request from the rows. */
module ItemForm {
  import opened Common
  import opened Records
  import opened NumberCodec

  /** One `<tr>` of `#itemsTableBody`: the delete checkbox, the budget
      select's value, the text of the name, spec, quantity, price and vendor
      inputs, `dataset.itemTotal` (0 while unset), the shipping checkbox and
      the shipping input's text. */
  datatype Row = Row(
    checked: bool,
    budget: string,
    name: string,
    spec: string,
    qty: string,
    price: string,
    itemTotal: int,
    vendor: string,
    shipChecked: bool,
    shipping: string)

  /** The three `.number-input`s of a row. */
  datatype NumberField = Qty | Price | Shipping

  /** A row as `addItemRow` creates it: empty inputs, the "선택" option (value '') selected. */
  const BlankRow: Row := Row(false, "", "", "", "", "", 0, "", false, "")

  function FieldText(row: Row, field: NumberField): string {
    match field
    case Qty => row.qty
    case Price => row.price
    case Shipping => row.shipping
  }

  function SetText(row: Row, field: NumberField, text: string): (r: Row)
    ensures FieldText(r, field) == text
  {
    match field
    case Qty => row.(qty := text)
    case Price => row.(price := text)
    case Shipping => row.(shipping := text)
  }

  /** The number inputs hold text the codec reads back. */
  predicate TextsValid(row: Row) {
    IsNumberText(row.qty) && IsNumberText(row.price) && IsNumberText(row.shipping)
  }

  predicate AllTextsValid(rows: seq<Row>) {
    forall i :: 0 <= i < |rows| ==> TextsValid(rows[i])
  }

  predicate AllRowsValid(rows: seq<Row>) {
    forall i :: 0 <= i < |rows| ==> RowValid(rows[i])
  }

  /** `calculateRowTotal`'s value: quantity times price, shipping excluded (js/ui.js:265-272). */
  function RowProduct(row: Row): nat
    requires TextsValid(row)
  {
    var q := Parse(row.qty);
    var p := Parse(row.price);
    assert q * p >= 0 by { MulNonNeg(q, p); }
    q * p
  }

  lemma MulNonNeg(a: nat, b: nat)
    ensures a * b >= 0
  {
  }

  /** A row whose texts are readable and whose cached total is current. */
  predicate RowValid(row: Row) {
    TextsValid(row) && row.itemTotal == RowProduct(row)
  }

  /** The shipping a row adds: its amount when the box is checked, 0 otherwise. */
  function ShippingCharge(row: Row): nat
    requires TextsValid(row)
  {
    if row.shipChecked then Parse(row.shipping) else 0
  }

  /** What one row adds to the grand total (js/ui.js:278-284). */
  function RowCharge(row: Row): int
    requires TextsValid(row)
  {
    row.itemTotal + ShippingCharge(row)
  }

  /** The sum of every row's charge, named or not. */
  function GrandTotal(rows: seq<Row>): int
    requires AllTextsValid(rows)
  {
    if rows == [] then 0 else GrandTotal(rows[..|rows| - 1]) + RowCharge(rows[|rows| - 1])
  }

  /** The item the form builds from a named row (js/ui.js:306-331): totals
      are recomputed from the inputs, not taken from the cache. */
  function ItemOf(row: Row): Item
    requires TextsValid(row)
  {
    Item(row.budget, row.name, row.spec, Parse(row.qty), Parse(row.price), RowProduct(row), ShippingCharge(row),
         RowProduct(row) + ShippingCharge(row), row.vendor)
  }

  /** The items of the named rows, in row order; nameless rows are skipped. */
  function NamedItems(rows: seq<Row>): seq<Item>
    requires AllTextsValid(rows)
  {
    if rows == [] then []
    else
      var last := rows[|rows| - 1];
      NamedItems(rows[..|rows| - 1]) + (if last.name != "" then [ItemOf(last)] else [])
  }

  /** The rows without a name, in order. */
  function UnnamedRows(rows: seq<Row>): (r: seq<Row>)
    ensures forall i :: 0 <= i < |r| ==> r[i].name == ""
    ensures AllTextsValid(rows) ==> AllTextsValid(r)
  {
    if rows == [] then []
    else
      var last := rows[|rows| - 1];
      UnnamedRows(rows[..|rows| - 1]) + (if last.name == "" then [last] else [])
  }

  function ItemsTotal(items: seq<Item>): int {
    if items == [] then 0 else ItemsTotal(items[..|items| - 1]) + items[|items| - 1].total
  }

  /** An item as the form promises it: named, with a budget, its pure price
      quantity times unit price, its total that price plus shipping. */
  predicate ItemShaped(it: Item) {
    it.name != "" && it.budgetName != "" && it.itemTotal == it.qty * it.price && it.total == it.itemTotal + it.shipping
  }

  lemma ItemOfShaped(row: Row)
    requires TextsValid(row) && row.name != "" && row.budget != ""
    ensures ItemShaped(ItemOf(row))
  {
  }

  /** Some named row has no budget selected. */
  predicate MissingBudget(rows: seq<Row>) {
    exists j :: 0 <= j < |rows| && rows[j].name != "" && rows[j].budget == ""
  }

  /** No row has a name. */
  predicate NoNamedRow(rows: seq<Row>) {
    forall j :: 0 <= j < |rows| ==> rows[j].name == ""
  }

  /** The rows whose delete box is not checked, in their order. */
  function Unchecked(rows: seq<Row>): (r: seq<Row>)
    ensures forall i :: 0 <= i < |r| ==> !r[i].checked
  {
    if rows == [] then []
    else
      var last := rows[|rows| - 1];
      Unchecked(rows[..|rows| - 1]) + (if last.checked then [] else [last])
  }

  /** The rows whose delete box is checked, in their order. */
  function Checked(rows: seq<Row>): (r: seq<Row>)
    ensures forall i :: 0 <= i < |r| ==> r[i].checked
  {
    if rows == [] then []
    else
      var last := rows[|rows| - 1];
      Checked(rows[..|rows| - 1]) + (if last.checked then [last] else [])
  }

  /** The `<option>` value of a budget line: `${item['산출내역']}`, which
      renders a missing key as the text "undefined". */
  function OptionValue(a: Allocation): string {
    match a.key
    case Some(k) => k
    case None => "undefined"
  }

  /** The option values of every budget select after a refresh (js/ui.js:78-92):
      '' ("선택") first, then "예산 없음" (also '') when the list read from
      `window.appState` is missing or empty, else one option per budget line. */
  function BudgetOptions(windowItems: Option<seq<Allocation>>): (r: seq<string>)
    ensures 0 < |r| && r[0] == ""
    ensures windowItems.None? ==> forall v :: v in r ==> v == ""
  {
    var items := windowItems.GetOr([]);
    [""] + if |items| == 0 then [""] else seq(|items|, j requires 0 <= j < |items| => OptionValue(items[j]))
  }

  /** A select's value after its options are replaced (js/ui.js:97-104): the
      previous value when it is non-empty and still an option, '' otherwise. */
  function RestoreSelection(current: string, options: seq<string>): (r: string)
    ensures r == current <==> current == "" || current in options
    ensures r != current ==> r == ""
  {
    if current != "" && current in options then current else ""
  }

  /** The rows after every select was given `options` (js/ui.js:95-105):
      the same rows, each with its selection restored or cleared. */
  predicate Refreshed(before: seq<Row>, after: seq<Row>, options: seq<string>) {
    && |after| == |before|
    && forall j :: 0 <= j < |before| ==>
         after[j] == before[j].(budget := RestoreSelection(before[j].budget, options))
  }

  datatype FormError = NoDocName | NoBudget | NoItems

  /** What `getExpenditureFormData` yields: a request, or null after one of
      its three alerts. */
  datatype FormResult = Form(entry: Entry) | Rejected(error: FormError)

  /** What the form yields for a document name and a table: the document
      name is checked first, then a named row without a budget is refused,
      then a table without named rows; otherwise the request holds the named
      rows' items, the grand total of all rows and no top-level `budgetName`. */
  function FormSpec(rows: seq<Row>, docName: string, date: string): FormResult
    requires AllTextsValid(rows)
  {
    if docName == "" then Rejected(NoDocName)
    else if MissingBudget(rows) then Rejected(NoBudget)
    else if NoNamedRow(rows) then Rejected(NoItems)
    else Form(Entry(docName, NamedItems(rows), GrandTotal(rows), date, None))
  }

  class ItemsTable {
    var rows: seq<Row>
    /** `#deleteModeBtn` carries the class `active`. */
    var deleteMode: bool

    ghost predicate Valid()
      reads this
    {
      AllRowsValid(rows)
    }

    constructor ()
      ensures Valid() && rows == [] && !deleteMode
    {
      rows := [];
      deleteMode := false;
    }

    /** `addItemRow` (js/ui.js:169-221): one blank row at the end. */
    method AddItemRow()
      requires Valid()
      modifies this
      ensures Valid()
      ensures rows == old(rows) + [BlankRow] && deleteMode == old(deleteMode)
    {
      rows := rows + [BlankRow];
    }

    /** `addInitialRows` (js/ui.js:161-167): clear the table, then add five blank rows. */
    method AddInitialRows()
      modifies this
      ensures Valid()
      ensures rows == [BlankRow, BlankRow, BlankRow, BlankRow, BlankRow] && deleteMode == old(deleteMode)
    {
      rows := [];
      var i := 0;
      while i < 5
        invariant 0 <= i <= 5
        invariant Valid() && deleteMode == old(deleteMode)
        invariant rows == seq(i, _ => BlankRow)
      {
        AddItemRow();
        i := i + 1;
      }
    }

    /** `formatNumberInput` on one number input of row `i` (js/ui.js:223-234). */
    method FormatNumberInput(i: nat, field: NumberField)
      requires i < |rows|
      modifies this
      ensures deleteMode == old(deleteMode)
      ensures rows == old(rows)[i := SetText(old(rows[i]), field, Format(FieldText(old(rows[i]), field)))]
    {
      var text := FieldText(rows[i], field);
      rows := rows[i := SetText(rows[i], field, Format(text))];
    }

    /** `calculateRowTotal` on row `i`: caches quantity times price (js/ui.js:265-272). */
    method CalculateRowTotal(i: nat)
      requires i < |rows| && TextsValid(rows[i])
      modifies this
      ensures deleteMode == old(deleteMode)
      ensures rows == old(rows)[i := old(rows[i]).(itemTotal := RowProduct(old(rows[i])))]
      ensures RowValid(rows[i])
    {
      rows := rows[i := rows[i].(itemTotal := RowProduct(rows[i]))];
    }

    /** `calculateGrandTotal` (js/ui.js:274-289): the running sum over every
        row of its cached total plus, if its box is checked, its shipping. */
    method CalculateGrandTotal() returns (grandTotal: int)
      requires AllTextsValid(rows)
      ensures grandTotal == GrandTotal(rows)
    {
      grandTotal := 0;
      var k := 0;
      while k < |rows|
        invariant 0 <= k <= |rows|
        invariant grandTotal == GrandTotal(rows[..k])
      {
        var row := rows[k];
        var shipping := 0;
        if row.shipChecked {
          shipping := Parse(row.shipping);
        }
        grandTotal := grandTotal + (row.itemTotal + shipping);
        assert rows[..k + 1][..k] == rows[..k];
        k := k + 1;
      }
      assert rows[..k] == rows;
    }

    /** The input handler of a number input (js/ui.js:199-206): the typed
        text is formatted in place, then the row total is cached again. */
    method InputNumber(i: nat, field: NumberField, typed: string)
      requires Valid() && i < |rows|
      modifies this
      ensures Valid() && deleteMode == old(deleteMode)
      ensures |rows| == |old(rows)|
      ensures forall j :: 0 <= j < |rows| && j != i ==> rows[j] == old(rows[j])
      ensures FieldText(rows[i], field) == Format(typed)
      ensures rows[i] == SetText(old(rows[i]), field, Format(typed)).(itemTotal := RowProduct(rows[i]))
    {
      rows := rows[i := SetText(rows[i], field, typed)];
      FormatNumberInput(i, field);
      ghost var text := Format(typed);
      SetTextTwice(old(rows[i]), field, typed, text);
      InputKeepsValid(old(rows), i, field, text);
      CalculateRowTotal(i);
      ValidTexts(rows);
      var shown := CalculateGrandTotal();
    }

    /** The shipping checkbox's change handler (js/ui.js:208-220), after the
        box has become `checked`: unchecking clears the shipping text and
        recomputes the row. */
    method ToggleShipping(i: nat, checked: bool)
      requires Valid() && i < |rows|
      modifies this
      ensures Valid() && deleteMode == old(deleteMode)
      ensures rows == old(rows)[i := old(rows[i]).(shipChecked := checked,
                                                  shipping := if checked then old(rows[i]).shipping else "")]
    {
      var row := rows[i].(shipChecked := checked);
      assert RowProduct(row) == RowProduct(rows[i]);
      UpdateKeepsValid(rows, i, row);
      rows := rows[i := row];
      if !checked {
        rows := rows[i := rows[i].(shipping := "")];
        CalculateRowTotal(i);
        UpdateKeepsValid(old(rows)[i := row], i, rows[i]);
        ValidTexts(rows);
        var shown := CalculateGrandTotal();
      }
    }

    /** `toggleDeleteMode` (js/ui.js:241-263): entering delete mode removes
        nothing; confirming removes exactly the checked rows, keeps the
        others in order and returns to normal mode. */
    method ToggleDeleteMode()
      requires Valid()
      modifies this
      ensures Valid()
      ensures deleteMode == !old(deleteMode)
      ensures !old(deleteMode) ==> rows == old(rows)
      ensures old(deleteMode) ==> rows == Unchecked(old(rows))
    {
      if !deleteMode {
        deleteMode := true;
        return;
      }
      var kept: seq<Row> := [];
      var k := 0;
      while k < |rows|
        invariant 0 <= k <= |rows|
        invariant kept == Unchecked(rows[..k])
      {
        if !rows[k].checked {
          kept := kept + [rows[k]];
        }
        assert rows[..k + 1][..k] == rows[..k];
        k := k + 1;
      }
      assert rows[..k] == rows;
      UncheckedValid(rows);
      rows := kept;
      deleteMode := false;
      ValidTexts(rows);
      var shown := CalculateGrandTotal();
    }

    /** `updateBudgetDropdown` (js/ui.js:90-106): every select gets the new
        options and keeps its value only if that value is still offered. */
    method UpdateBudgetDropdown(windowItems: Option<seq<Allocation>>)
      requires Valid()
      modifies this
      ensures Valid() && deleteMode == old(deleteMode)
      ensures Refreshed(old(rows), rows, BudgetOptions(windowItems))
    {
      var options := BudgetOptions(windowItems);
      var k := 0;
      while k < |rows|
        invariant 0 <= k <= |rows| == |old(rows)|
        invariant forall j :: 0 <= j < k ==> rows[j] == old(rows[j]).(budget := RestoreSelection(old(rows[j]).budget, options))
        invariant forall j :: k <= j < |rows| ==> rows[j] == old(rows[j])
        invariant Valid() && deleteMode == old(deleteMode)
      {
        var current := rows[k].budget;
        var row := rows[k].(budget := RestoreSelection(current, options));
        assert RowProduct(row) == RowProduct(rows[k]);
        UpdateKeepsValid(rows, k, row);
        rows := rows[k := row];
        k := k + 1;
      }
    }

    /** `getExpenditureFormData` (js/ui.js:291-345): return early when the
        document name is empty; walk the rows in order, skipping nameless
        ones and stopping at the first named row with no budget; refuse an
        empty item list; the total is `calculateGrandTotal()`. */
    method GetExpenditureFormData(docName: string, date: string) returns (r: FormResult)
      requires AllTextsValid(rows)
      ensures r == FormSpec(rows, docName, date)
    {
      if docName == "" {
        return Rejected(NoDocName);
      }
      var rs := rows;
      var items: seq<Item> := [];
      var k := 0;
      while k < |rs|
        invariant 0 <= k <= |rs|
        invariant items == NamedItems(rs[..k])
        invariant !MissingBudget(rs[..k])
      {
        var row := rs[k];
        BudgetStep(rs, k);
        NamedItemsStep(rs, k);
        if row.name == "" {
          k := k + 1;
          continue;
        }
        if row.budget == "" {
          MissingBudgetPrefix(rs, k + 1);
          return Rejected(NoBudget);
        }
        var item := ItemOf(row);  // the object pushed at js/ui.js:312-331
        items := items + [item];
        k := k + 1;
      }
      assert rs[..k] == rs;
      NamedItemsEmpty(rs);
      if |items| == 0 {
        return Rejected(NoItems);
      }
      var total := CalculateGrandTotal();
      assert items == NamedItems(rows) && total == GrandTotal(rows);
      r := Form(Entry(docName, items, total, date, None));
    }
  }

  /** One more row of the table misses a budget exactly when it is named and its select is on ''. */
  lemma BudgetStep(rows: seq<Row>, k: nat)
    requires k < |rows|
    ensures MissingBudget(rows[..k + 1]) <==> MissingBudget(rows[..k]) || (rows[k].name != "" && rows[k].budget == "")
  {
    var p, q := rows[..k], rows[..k + 1];
    if MissingBudget(q) {
      var j :| 0 <= j < |q| && q[j].name != "" && q[j].budget == "";
      if j < k {
        assert p[j] == q[j];
      }
    }
    if MissingBudget(p) {
      var j :| 0 <= j < |p| && p[j].name != "" && p[j].budget == "";
      assert q[j] == p[j];
    }
    if rows[k].name != "" && rows[k].budget == "" {
      assert q[k] == rows[k];
    }
  }

  /** A prefix that misses a budget makes the whole table miss one. */
  lemma MissingBudgetPrefix(rows: seq<Row>, m: nat)
    requires m <= |rows| && MissingBudget(rows[..m])
    ensures MissingBudget(rows)
  {
    var j :| 0 <= j < m && rows[..m][j].name != "" && rows[..m][j].budget == "";
    assert rows[j] == rows[..m][j];
  }

  /** The items of one more row of the table. */
  lemma NamedItemsStep(rows: seq<Row>, k: nat)
    requires AllTextsValid(rows) && k < |rows|
    ensures AllTextsValid(rows[..k]) && AllTextsValid(rows[..k + 1])
    ensures NamedItems(rows[..k + 1]) == NamedItems(rows[..k]) + (if rows[k].name != "" then [ItemOf(rows[k])] else [])
  {
    assert rows[..k + 1][..k] == rows[..k];
  }

  lemma SetTextTwice(row: Row, field: NumberField, t1: string, t2: string)
    ensures SetText(SetText(row, field, t1), field, t2) == SetText(row, field, t2)
  {
  }

  /** Readable text written into one number input, followed by the row
      total, keeps the table valid. */
  lemma InputKeepsValid(rows: seq<Row>, i: nat, field: NumberField, text: string)
    requires AllRowsValid(rows) && i < |rows| && IsNumberText(text)
    ensures var row := SetText(rows[i], field, text);
      TextsValid(row) && AllRowsValid(rows[i := row.(itemTotal := RowProduct(row))])
  {
    var row := SetText(rows[i], field, text);
    assert TextsValid(row);
    UpdateKeepsValid(rows, i, row.(itemTotal := RowProduct(row)));
  }

  lemma ValidTexts(rows: seq<Row>)
    requires AllRowsValid(rows)
    ensures AllTextsValid(rows)
  {
  }

  /** Replacing one row by a valid row keeps the table valid. */
  lemma UpdateKeepsValid(rows: seq<Row>, i: nat, row: Row)
    requires AllRowsValid(rows) && i < |rows| && RowValid(row)
    ensures AllRowsValid(rows[i := row])
  {
  }

  /** A form yields no items exactly when no row has a name. */
  lemma {:induction false} NamedItemsEmpty(rows: seq<Row>)
    requires AllTextsValid(rows)
    ensures NamedItems(rows) == [] <==> NoNamedRow(rows)
  {
    if rows != [] {
      var p, last := rows[..|rows| - 1], rows[|rows| - 1];
      PrefixTextsValid(rows);
      NamedItemsEmpty(p);
      assert NamedItems(rows) == NamedItems(p) + (if last.name != "" then [ItemOf(last)] else []);
      assert NoNamedRow(rows) <==> NoNamedRow(p) && last.name == "" by {
        if NoNamedRow(p) && last.name == "" {
          forall j | 0 <= j < |rows| ensures rows[j].name == "" {
            if j < |p| {
              assert rows[j] == p[j];
            }
          }
        }
        if NoNamedRow(rows) {
          forall j | 0 <= j < |p| ensures p[j].name == "" {
            assert p[j] == rows[j];
          }
        }
      }
    }
  }

  lemma PrefixTextsValid(rows: seq<Row>)
    requires AllTextsValid(rows) && rows != []
    ensures AllTextsValid(rows[..|rows| - 1]) && TextsValid(rows[|rows| - 1])
  {
    var p := rows[..|rows| - 1];
    forall j | 0 <= j < |p| ensures TextsValid(p[j]) {
      assert p[j] == rows[j];
    }
  }

  lemma {:induction false} GrandTotalConcat(a: seq<Row>, b: seq<Row>)
    requires AllTextsValid(a) && AllTextsValid(b)
    ensures AllTextsValid(a + b)
    ensures GrandTotal(a + b) == GrandTotal(a) + GrandTotal(b)
  {
    if b == [] {
      assert a + b == a;
    } else {
      GrandTotalConcat(a, b[..|b| - 1]);
      assert (a + b)[..|a + b| - 1] == a + b[..|b| - 1];
    }
  }

  /** Unchecking a row's shipping box takes exactly that row's shipping out
      of the grand total (js/ui.js:208-220, 281-284). Since unchecking also
      clears the shipping text, checking the box again adds 0 until a new
      amount is typed. */
  lemma ShippingToggleChangesTotal(rows: seq<Row>, i: nat)
    requires AllTextsValid(rows) && i < |rows|
    ensures var off := rows[i := rows[i].(shipChecked := false, shipping := "")];
      AllTextsValid(off) && GrandTotal(off) == GrandTotal(rows) - ShippingCharge(rows[i])
  {
    var off := rows[i := rows[i].(shipChecked := false, shipping := "")];
    assert rows == rows[..i] + [rows[i]] + rows[i + 1..];
    assert off == rows[..i] + [off[i]] + rows[i + 1..];
    GrandTotalConcat(rows[..i] + [rows[i]], rows[i + 1..]);
    GrandTotalConcat(rows[..i], [rows[i]]);
    GrandTotalConcat(rows[..i] + [off[i]], rows[i + 1..]);
    GrandTotalConcat(rows[..i], [off[i]]);
    assert [rows[i]][..0] == [] && [off[i]][..0] == [];
  }

  /** The request's total is the grand total of the table, which also
      counts rows left out of its items for having no name: it equals the
      items' own totals plus the charges of the nameless rows (js/ui.js:304,
      329, 342). */
  lemma {:induction false} FormTotalAccounting(rows: seq<Row>)
    requires AllRowsValid(rows)
    ensures GrandTotal(rows) == ItemsTotal(NamedItems(rows)) + GrandTotal(UnnamedRows(rows))
  {
    if rows != [] {
      var p := rows[..|rows| - 1];
      var last := rows[|rows| - 1];
      FormTotalAccounting(p);
      assert GrandTotal(rows) == GrandTotal(p) + RowCharge(last);
      if last.name != "" {
        var items := NamedItems(p) + [ItemOf(last)];
        assert NamedItems(rows) == items;
        assert UnnamedRows(rows) == UnnamedRows(p) + [] == UnnamedRows(p);
        assert items[..|items| - 1] == NamedItems(p);
        assert ItemsTotal(items) == ItemsTotal(NamedItems(p)) + ItemOf(last).total;
        assert ItemOf(last).total == RowCharge(last);
      } else {
        GrandTotalConcat(UnnamedRows(p), [last]);
        assert [last][..0] == [];
        assert NamedItems(p) + [] == NamedItems(p);
      }
    }
  }

  /** Every item of a request is internally consistent: a name, the chosen
      budget, `itemTotal = qty * price` and
      `total = itemTotal + shipping` (js/ui.js:312-331). */
  lemma {:induction false} NamedItemsShape(rows: seq<Row>)
    requires AllTextsValid(rows)
    requires !MissingBudget(rows)
    ensures forall k :: 0 <= k < |NamedItems(rows)| ==> ItemShaped(NamedItems(rows)[k])
  {
    if rows != [] {
      var p, last := rows[..|rows| - 1], rows[|rows| - 1];
      PrefixTextsValid(rows);
      assert !MissingBudget(p) by {
        forall j | 0 <= j < |p| ensures !(p[j].name != "" && p[j].budget == "") {
          assert p[j] == rows[j];
        }
      }
      NamedItemsShape(p);
      var tail := if last.name != "" then [ItemOf(last)] else [];
      assert NamedItems(rows) == NamedItems(p) + tail;
      if last.name != "" {
        assert last.budget != "" by {
          assert rows[|rows| - 1] == last;
        }
        ItemOfShaped(last);
      }
    }
  }

  /** The items follow the rows' order: the items of two consecutive blocks
      of rows are the items of the first block followed by those of the second. */
  lemma {:induction false} NamedItemsConcat(a: seq<Row>, b: seq<Row>)
    requires AllTextsValid(a) && AllTextsValid(b)
    ensures AllTextsValid(a + b)
    ensures NamedItems(a + b) == NamedItems(a) + NamedItems(b)
  {
    if b == [] {
      assert a + b == a;
    } else {
      NamedItemsConcat(a, b[..|b| - 1]);
      assert (a + b)[..|a + b| - 1] == a + b[..|b| - 1];
    }
  }

  /** Confirming delete mode removes exactly the checked rows: the kept and
      the removed rows together are the table, every kept row is unchecked
      and every removed row is checked (js/ui.js:252-255). */
  lemma {:induction false} DeletePartitionsRows(rows: seq<Row>)
    ensures multiset(Unchecked(rows)) + multiset(Checked(rows)) == multiset(rows)
    ensures |Unchecked(rows)| + |Checked(rows)| == |rows|
  {
    if rows != [] {
      var p := rows[..|rows| - 1];
      var last := rows[|rows| - 1];
      DeletePartitionsRows(p);
      assert rows == p + [last];
      if last.checked {
        assert Unchecked(rows) == Unchecked(p) + [];
        assert Checked(rows) == Checked(p) + [last];
      } else {
        assert Unchecked(rows) == Unchecked(p) + [last];
        assert Checked(rows) == Checked(p) + [];
      }
      assert multiset(rows) == multiset(p) + multiset{last};
    }
  }

  /** Deleting rows keeps the table valid. */
  lemma {:induction false} UncheckedValid(rows: seq<Row>)
    requires AllRowsValid(rows)
    ensures AllRowsValid(Unchecked(rows))
  {
    if rows != [] {
      var p, last := rows[..|rows| - 1], rows[|rows| - 1];
      assert AllRowsValid(p) by {
        forall j | 0 <= j < |p| ensures RowValid(p[j]) {
          assert p[j] == rows[j];
        }
      }
      UncheckedValid(p);
      var tail := if last.checked then [] else [last];
      assert Unchecked(rows) == Unchecked(p) + tail;
      assert RowValid(last);
    }
  }

  /** Deleting keeps the order of the remaining rows: it works block by block. */
  lemma {:induction false} UncheckedConcat(a: seq<Row>, b: seq<Row>)
    ensures Unchecked(a + b) == Unchecked(a) + Unchecked(b)
  {
    if b == [] {
      assert a + b == a;
    } else {
      var b', last := b[..|b| - 1], b[|b| - 1];
      var tail := if last.checked then [] else [last];
      UncheckedConcat(a, b');
      assert (a + b)[..|a + b| - 1] == a + b';
      assert (a + b)[|a + b| - 1] == last;
      assert Unchecked(a + b) == Unchecked(a + b') + tail;
      assert Unchecked(b) == Unchecked(b') + tail;
      assert Unchecked(a) + Unchecked(b') + tail == Unchecked(a) + (Unchecked(b') + tail);
    }
  }

  /** Without `window.appState` (app.js declares `appState` with `const`,
      which does not make it a property of `window`), a refresh leaves every
      select on '' (js/ui.js:83, 100-104). */
  lemma RefreshWithoutWindowState(current: string)
    ensures RestoreSelection(current, BudgetOptions(None)) == ""
  {
  }

  /** A table whose budget selects are all on '' (as they are after a
      refresh without `window.appState`) cannot produce a request once a row
      has a name: the walk stops at that row (js/ui.js:306-310). */
  lemma UnselectedBudgetsBlockForms(rows: seq<Row>, j: nat, docName: string, date: string)
    requires AllTextsValid(rows) && j < |rows| && rows[j].name != "" && docName != ""
    requires forall k :: 0 <= k < |rows| ==> rows[k].budget == ""
    ensures FormSpec(rows, docName, date) == Rejected(NoBudget)
  {
    assert rows[j].name != "" && rows[j].budget == "";
  }

  /** A request the form yields carries no top-level `budgetName`
      (js/ui.js:339-344). */
  lemma FormHasNoBudgetName(rows: seq<Row>, docName: string, date: string)
    requires AllTextsValid(rows)
    ensures var f := FormSpec(rows, docName, date);
      f.Form? ==> f.entry.budgetName == None
  {
  }

  /** On the page as written, where `window.appState` is undefined, a
      dropdown refresh leaves every select on '', so from then on any table
      with a named row is refused for a missing budget. */
  lemma RefreshedBlocksForms(before: seq<Row>, after: seq<Row>, j: nat, docName: string, date: string)
    requires Refreshed(before, after, BudgetOptions(None)) && AllTextsValid(after)
    requires j < |after| && after[j].name != "" && docName != ""
    ensures FormSpec(after, docName, date) == Rejected(NoBudget)
  {
    forall k | 0 <= k < |after|
      ensures after[k].budget == ""
    {
      RefreshWithoutWindowState(before[k].budget);
    }
    UnselectedBudgetsBlockForms(after, j, docName, date);
  }
}
