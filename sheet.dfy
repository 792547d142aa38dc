/** The spreadsheet side of js/excel.js: the check on an imported budget
    sheet, and the layout of the exported request sheet. The XLSX library
    itself (reading workbooks, writing files) is not part of this model. */
module RequestSheet {
  import opened Common
  import opened Records

  /** `readBudgetFile`'s check on the rows `sheet_to_json` gives for the
      first sheet (js/excel.js:29-34): no rows is rejected, any other list is
      passed on unchanged. */
  function ReadBudgetFile(rows: seq<Allocation>): (r: Completion<seq<Allocation>>)
    ensures r.Threw? <==> |rows| == 0
    ensures r.Threw? ==> r.message == "데이터가 없습니다."
    ensures r.Returned? ==> r.value == rows
  {
    if |rows| == 0 then Threw("데이터가 없습니다.") else Returned(rows)
  }

  /** A value of the sheet data passed to `aoa_to_sheet`. */
  datatype CellValue = Number(n: int) | Text(s: string)

  /** The header row (js/excel.js:59). */
  const Headers: seq<CellValue> :=
    [Text("순번"), Text("물품명"), Text("규격"), Text("수량"), Text("단가"), Text("총액")]

  /** The sheet row of the item at position k: serial number k + 1, name,
      spec, quantity, unit price and the item's total (js/excel.js:64-71). */
  function ItemRow(k: nat, item: Item): (r: seq<CellValue>)
    ensures |r| == |Headers|
  {
    [Number(k + 1), Text(item.name), Text(item.spec), Number(item.qty), Number(item.price), Number(item.total)]
  }

  /** The `wsData` array of `generateRequestExcel` (js/excel.js:62-72): the
      headers, then one row per item in item order. */
  method BuildRequestRows(items: seq<Item>) returns (wsData: seq<seq<CellValue>>)
    ensures |wsData| == |items| + 1
    ensures wsData[0] == Headers
    ensures forall k :: 0 <= k < |items| ==> wsData[k + 1] == ItemRow(k, items[k])
    ensures forall r :: 0 <= r < |wsData| ==> |wsData[r]| == |Headers|
  {
    wsData := [Headers];
    var index := 0;
    while index < |items|
      invariant 0 <= index <= |items|
      invariant |wsData| == index + 1 && wsData[0] == Headers
      invariant forall k :: 0 <= k < index ==> wsData[k + 1] == ItemRow(k, items[k])
      invariant forall r :: 0 <= r < |wsData| ==> |wsData[r]| == |Headers|
    {
      var item := items[index];
      wsData := wsData + [[Number(index + 1), Text(item.name), Text(item.spec), Number(item.qty),
                           Number(item.price), Number(item.total)]];
      index := index + 1;
    }
  }

  /** The name the request sheet is saved under (js/excel.js:128): the
      document name, or "품의서" when it is empty, followed by ".xlsx". */
  function RequestFileName(docName: string): (r: string)
    ensures |r| >= 5 && r[|r| - 5..] == ".xlsx"
    ensures r[..|r| - 5] == if docName == "" then "품의서" else docName
  {
    (if docName == "" then "품의서" else docName) + ".xlsx"
  }

  /** A cell address; `r` and `c` count from 0, as `encode_cell` takes them. */
  datatype Address = Address(r: nat, c: nat)

  /** The parts of a cell's style the export sets: the header look (fill,
      bold font, centring) and the thin border. */
  datatype Style = Style(header: bool, border: bool)

  datatype Cell = Cell(value: CellValue, style: Style)

  const Unstyled: Style := Style(false, false)

  /** The cell a data position holds after the border loop: an existing cell
      keeps its value and style and gains the border; a missing one is
      created as an empty string with the border. */
  function BorderedCell(before: map<Address, Cell>, a: Address): Cell {
    if a in before then before[a].(style := before[a].style.(border := true))
    else Cell(Text(""), Style(false, true))
  }

  /** The worksheet object `aoa_to_sheet` returns, with its cells and the
      last row and column of its `!ref` range. */
  class Worksheet {
    var cells: map<Address, Cell>
    const lastRow: nat
    const lastCol: nat

    /** `decode_range(ws['!ref'])` starts at A1; its end is given. */
    constructor (cells: map<Address, Cell>, lastRow: nat, lastCol: nat)
      ensures this.cells == cells && this.lastRow == lastRow && this.lastCol == lastCol
    {
      this.cells := cells;
      this.lastRow := lastRow;
      this.lastCol := lastCol;
    }

    /** A position of the data region: rows 1 to lastRow, every column. */
    predicate InData(a: Address) {
      1 <= a.r <= lastRow && a.c <= lastCol
    }

    /** The header loop (js/excel.js:89-107): every existing cell of row 0
        gets the header style; a missing header cell is skipped. */
    method StyleHeaderRow()
      modifies this
      ensures cells.Keys == old(cells).Keys
      ensures forall a :: a in cells ==>
        cells[a] == if a.r == 0 && a.c <= lastCol then old(cells)[a].(style := Style(true, true)) else old(cells)[a]
    {
      var c := 0;
      while c <= lastCol
        invariant 0 <= c <= lastCol + 1
        invariant cells.Keys == old(cells).Keys
        invariant forall a :: a in cells ==>
          cells[a] == if a.r == 0 && a.c < c then old(cells)[a].(style := Style(true, true)) else old(cells)[a]
      {
        var address := Address(0, c);
        if address in cells {
          cells := cells[address := cells[address].(style := Style(true, true))];
        }
        c := c + 1;
      }
    }

    /** One step of the border loop (js/excel.js:113-121): create the cell
        if missing, then set its border. */
    method BorderCell(address: Address)
      modifies this
      ensures cells == old(cells)[address := BorderedCell(old(cells), address)]
    {
      if address !in cells {
        cells := cells[address := Cell(Text(""), Unstyled)];
      }
      cells := cells[address := cells[address].(style := cells[address].style.(border := true))];
    }

    /** The border loop (js/excel.js:110-123): every position of the data
        region ends up with a cell carrying the border; missing cells are
        created as empty strings, existing values are not changed, and
        nothing outside the region changes. */
    method BorderDataCells()
      modifies this
      ensures forall a :: a in cells <==> a in old(cells) || InData(a)
      ensures forall a :: a in cells ==> cells[a] == if InData(a) then BorderedCell(old(cells), a) else old(cells)[a]
    {
      var r := 1;
      while r <= lastRow
        invariant 1 <= r <= lastRow + 1 || (lastRow == 0 && r == 1)
        invariant forall a :: a in cells <==> a in old(cells) || (InData(a) && Visited(a, r, 0))
        invariant forall a :: a in cells ==>
          cells[a] == if InData(a) && Visited(a, r, 0) then BorderedCell(old(cells), a) else old(cells)[a]
      {
        var c := 0;
        while c <= lastCol
          invariant 0 <= c <= lastCol + 1
          invariant forall a :: a in cells <==> a in old(cells) || (InData(a) && Visited(a, r, c))
          invariant forall a :: a in cells ==>
            cells[a] == if InData(a) && Visited(a, r, c) then BorderedCell(old(cells), a) else old(cells)[a]
        {
          BorderCell(Address(r, c));
          c := c + 1;
        }
        assert forall a :: InData(a) ==> (Visited(a, r, c) <==> Visited(a, r + 1, 0));
        r := r + 1;
      }
    }
  }

  /** The loop over (row, column) has passed `a` once it stands at (r, c). */
  predicate Visited(a: Address, r: nat, c: nat) {
    a.r < r || (a.r == r && a.c < c)
  }

  /** The cells `aoa_to_sheet` is taken to build from the sheet data: one
      unstyled cell per value, at its row and column. */
  function SheetCells(rows: seq<seq<CellValue>>): map<Address, Cell> {
    map r: nat, c: nat | r < |rows| && c < |rows[r]| :: Address(r, c) := Cell(rows[r][c], Unstyled)
  }

  lemma SheetCellsAt(rows: seq<seq<CellValue>>)
    ensures forall r, c :: 0 <= r < |rows| && 0 <= c < |rows[r]| ==>
      Address(r, c) in SheetCells(rows) && SheetCells(rows)[Address(r, c)] == Cell(rows[r][c], Unstyled)
  {
  }

  /** `generateRequestExcel` (js/excel.js:50-130) up to the call that writes
      the file: the sheet data, the worksheet with its header row styled and
      its data cells bordered, and the file name. */
  method GenerateRequestExcel(form: Entry) returns (ws: Worksheet, fileName: string)
    ensures fresh(ws)
    ensures ws.lastRow == |form.items| && ws.lastCol == |Headers| - 1
    ensures forall k, c :: 0 <= k < |form.items| && 0 <= c < |Headers| ==>
      Address(k + 1, c) in ws.cells && ws.cells[Address(k + 1, c)] == Cell(ItemRow(k, form.items[k])[c], Style(false, true))
    ensures forall c :: 0 <= c < |Headers| ==>
      Address(0, c) in ws.cells && ws.cells[Address(0, c)] == Cell(Headers[c], Style(true, true))
    ensures fileName == RequestFileName(form.docName)
  {
    var wsData := BuildRequestRows(form.items);
    var built := SheetCells(wsData);
    SheetCellsAt(wsData);
    ws := new Worksheet(built, |wsData| - 1, |Headers| - 1);
    ws.StyleHeaderRow();
    ghost var styled := ws.cells;
    ws.BorderDataCells();
    forall k, c | 0 <= k < |form.items| && 0 <= c < |Headers|
      ensures Address(k + 1, c) in ws.cells && ws.cells[Address(k + 1, c)] == Cell(ItemRow(k, form.items[k])[c], Style(false, true))
    {
      var a := Address(k + 1, c);
      assert a in built && built[a] == Cell(wsData[k + 1][c], Unstyled);
      assert styled[a] == built[a];
    }
    fileName := RequestFileName(form.docName);
  }
}
