/**
 * The grid store of a sheet (`Sheet.setGridData`, `setGridValues`,
 * `getGridCell`) and the workbook's list of sheets (`Spreadsheet.addSheet`).
 *
 * A sheet keeps an append-only log of rectangular blocks (`data`) and the
 * grid bounds (`properties.gridProperties`); a read scans the log newest
 * block first, so the last write to a cell wins.
 */
module Sheets {
  import opened Wrappers
  import opened Addresses
  import opened AlphaTables
  import opened A1
  import opened CellValues

  /** A range argument: A1 text, or an address record. */
  datatype Range = A1Text(text: string) | Record(address: Address)

  /** What setGridData and getGridCell throw. */
  datatype SheetError =
    | A1Failure(a1: A1Error)
    | AddressFailure(invalid: AddressError)
    /** Reading `rowData.values.length` of a row that was stored as `{}`. */
    | RowWithoutValues

  /** A stored row: `{ values: [...] }` with at least one cell, or `{}`. */
  datatype RowData = Values(values: seq<CellData>) | NoValues

  /** One block of the log: `{ startRow, startColumn, rowData }`. */
  datatype GridData = GridData(startRow: int, startColumn: int, rowData: seq<RowData>)

  datatype GridProperties = GridProperties(rowCount: int, columnCount: int)

  function Max(a: int, b: int): int { if a < b then b else a }

  // ----- Resolving the range argument -----

  /** Table length after the range argument is resolved: only A1 text touches the tables. */
  function ResolvePrepared(n: nat, range: Range): nat
  {
    match range
    case A1Text(s) => FromA1Prepared(n, s)
    case Record(_) => n
  }

  /**
   * The address a range argument stands for once the tables have length n:
   * A1 text is parsed, a record is validated and taken as it is.
   */
  function ResolveResult(n: nat, range: Range): (r: Result<Address, SheetError>)
    ensures r.Ok? ==> r.value.rowIndex >= 0 && r.value.columnIndex >= 0
    ensures r.Ok? ==> r.value.rowCount.GetOr(1) >= 0
    ensures range.Record? ==> (r.Ok? <==> ValidAddress(range.address))
    ensures range.Record? && r.Ok? ==> r.value == range.address
  {
    match range
    case A1Text(s) =>
      (match FromA1Result(n, s)
       case Ok(a) => Ok(a)
       case Err(e) => Err(A1Failure(e)))
    case Record(a) =>
      if ValidAddress(a) then Ok(a) else Err(AddressFailure(InvalidAddress(a)))
  }

  /** `typeof range === 'string' ? Sheet.fromA1(range) : (validateAddress(range), range)` */
  method ResolveRange(tables: ColumnTables, range: Range) returns (r: Result<Address, SheetError>)
    requires tables.Valid()
    modifies tables
    ensures tables.Valid()
    ensures |tables.indexToAlpha| == ResolvePrepared(old(|tables.indexToAlpha|), range)
    ensures r == ResolveResult(|tables.indexToAlpha|, range)
  {
    match range
    case A1Text(s) =>
      var a := FromA1(tables, s);
      r := if a.Ok? then Ok(a.value) else Err(A1Failure(a.error));
    case Record(a) =>
      var v := ValidateAddress(a);
      r := if v.Ok? then Ok(a) else Err(AddressFailure(v.error));
  }

  // ----- The block setGridData writes -----

  /** Counts after `Object.assign({ columnCount: 1, rowCount: 1 }, range)`. */
  function RowCountOf(a: Address): int { a.rowCount.GetOr(1) }

  function ColumnCountOf(a: Address): int { a.columnCount.GetOr(1) }

  /** How often `for (let i = 0; i < count; i++)` runs. */
  function Iterations(count: int): nat { if count < 0 then 0 else count }

  /** Row i of the block for address a: its cells, or `{}` when the row has no cells. */
  function BlockRow(a: Address, f: (int, int) -> CellData, i: int): RowData
  {
    var columns := Iterations(ColumnCountOf(a));
    if columns == 0 then NoValues
    else Values(seq(columns, j => f(a.columnIndex + j, a.rowIndex + i)))
  }

  /** The block setGridData appends for address a and cell function f. */
  function Block(a: Address, f: (int, int) -> CellData): GridData
  {
    GridData(a.rowIndex, a.columnIndex, seq(Iterations(RowCountOf(a)), i => BlockRow(a, f, i)))
  }

  /** The nested loops of setGridData that build `gridData`. */
  method BuildBlock(a: Address, f: (int, int) -> CellData) returns (g: GridData)
    ensures g == Block(a, f)
  {
    var rowCount, columnCount := RowCountOf(a), ColumnCountOf(a);
    var rows: seq<RowData> := [];
    var i := 0;
    while i < rowCount
      invariant 0 <= i && |rows| == i
      invariant i <= Iterations(rowCount)
      invariant forall k :: 0 <= k < i ==> rows[k] == BlockRow(a, f, k)
    {
      var values: seq<CellData> := [];
      var j := 0;
      while j < columnCount
        invariant 0 <= j && |values| == j
        invariant j <= Iterations(columnCount)
        invariant forall k :: 0 <= k < j ==> values[k] == f(a.columnIndex + k, a.rowIndex + i)
      {
        var cellData := f(j + a.columnIndex, i + a.rowIndex);
        values := values + [cellData];
        j := j + 1;
      }
      var rowData := if |values| > 0 then Values(values) else NoValues;
      assert |values| > 0 ==> values == seq(Iterations(columnCount), j => f(a.columnIndex + j, a.rowIndex + i));
      assert rowData == BlockRow(a, f, i);
      rows := rows + [rowData];
      i := i + 1;
    }
    assert rows == seq(Iterations(rowCount), i => BlockRow(a, f, i));
    g := GridData(a.rowIndex, a.columnIndex, rows);
  }

  // ----- Reading the log -----

  /** Row r of block g is among its rows and column c is not left of it. */
  predicate Reaches(g: GridData, r: int, c: int)
  {
    g.startColumn <= c && g.startRow <= r < g.startRow + |g.rowData|
  }

  /** Block g holds a cell at (r, c). */
  predicate Holds(g: GridData, r: int, c: int)
  {
    Reaches(g, r, c) && g.rowData[r - g.startRow].Values?
    && c < g.startColumn + |g.rowData[r - g.startRow].values|
  }

  /** The scan stops at g when reading (r, c): it holds the cell, or the row was stored as `{}`. */
  predicate Stops(g: GridData, r: int, c: int)
  {
    Reaches(g, r, c) && (g.rowData[r - g.startRow].NoValues? || Holds(g, r, c))
  }

  function CellOf(g: GridData, r: int, c: int): CellData
    requires Holds(g, r, c)
  {
    g.rowData[r - g.startRow].values[c - g.startColumn]
  }

  /**
   * The loop of getGridCell over `this.data.toReversed()`: the newest block
   * that stops the scan decides, `{}` when none does.
   */
  function ScanBlocks(blocks: seq<GridData>, r: int, c: int): (res: Result<CellData, SheetError>)
    ensures res.Err? ==> res.error == RowWithoutValues
  {
    if blocks == [] then Ok(EMPTY_CELL)
    else
      var g := blocks[|blocks| - 1];
      if !Reaches(g, r, c) then ScanBlocks(blocks[..|blocks| - 1], r, c)
      else match g.rowData[r - g.startRow]
        case NoValues => Err(RowWithoutValues)
        case Values(vs) =>
          if c < g.startColumn + |vs| then Ok(vs[c - g.startColumn])
          else ScanBlocks(blocks[..|blocks| - 1], r, c)
  }

  /**
   * What getGridCell returns for the address a: `null` (None) outside the
   * grid bounds or when there are none, otherwise what the scan finds.
   */
  function ReadCell(bounds: Option<GridProperties>, blocks: seq<GridData>, a: Address): Result<Option<CellData>, SheetError>
  {
    if bounds.None? || !(a.rowIndex < bounds.value.rowCount) || !(a.columnIndex < bounds.value.columnCount) then Ok(None)
    else
      match ScanBlocks(blocks, a.rowIndex, a.columnIndex)
      case Ok(cell) => Ok(Some(cell))
      case Err(e) => Err(e)
  }

  /**
   * The last write wins: when block k holds (r, c) and no later block stops
   * the scan there, the read finds block k's cell.
   */
  lemma {:induction false} LastWriteWins(blocks: seq<GridData>, r: int, c: int, k: nat)
    requires k < |blocks| && Holds(blocks[k], r, c)
    requires forall m :: k < m < |blocks| ==> !Stops(blocks[m], r, c)
    ensures ScanBlocks(blocks, r, c) == Ok(CellOf(blocks[k], r, c))
  {
    var last := |blocks| - 1;
    if k < last {
      assert !Stops(blocks[last], r, c);
      var prefix := blocks[..last];
      assert prefix[k] == blocks[k];
      forall m | k < m < |prefix|
        ensures !Stops(prefix[m], r, c)
      {
        assert prefix[m] == blocks[m];
      }
      LastWriteWins(prefix, r, c, k);
    }
  }

  /** A cell no block reaches with a stop reads as `{}`. */
  lemma {:induction false} NeverWritten(blocks: seq<GridData>, r: int, c: int)
    requires forall m :: 0 <= m < |blocks| ==> !Stops(blocks[m], r, c)
    ensures ScanBlocks(blocks, r, c) == Ok(EMPTY_CELL)
  {
    if blocks != [] {
      var prefix := blocks[..|blocks| - 1];
      forall m | 0 <= m < |prefix|
        ensures !Stops(prefix[m], r, c)
      {
        assert prefix[m] == blocks[m];
      }
      NeverWritten(prefix, r, c);
    }
  }

  /**
   * A read fails when the newest block that stops the scan has the row
   * stored as `{}`.
   */
  lemma {:induction false} RowWithoutValuesFails(blocks: seq<GridData>, r: int, c: int, k: nat)
    requires k < |blocks| && Reaches(blocks[k], r, c) && blocks[k].rowData[r - blocks[k].startRow].NoValues?
    requires forall m :: k < m < |blocks| ==> !Stops(blocks[m], r, c)
    ensures ScanBlocks(blocks, r, c) == Err(RowWithoutValues)
  {
    var last := |blocks| - 1;
    if k < last {
      assert !Stops(blocks[last], r, c);
      var prefix := blocks[..last];
      assert prefix[k] == blocks[k];
      forall m | k < m < |prefix|
        ensures !Stops(prefix[m], r, c)
      {
        assert prefix[m] == blocks[m];
      }
      RowWithoutValuesFails(prefix, r, c, k);
    }
  }

  /** A block appended on top decides every cell it holds. */
  lemma ReadBack(blocks: seq<GridData>, a: Address, f: (int, int) -> CellData, i: int, j: int)
    requires 0 <= i < RowCountOf(a) && 0 <= j < ColumnCountOf(a)
    ensures Holds(Block(a, f), a.rowIndex + i, a.columnIndex + j)
    ensures ScanBlocks(blocks + [Block(a, f)], a.rowIndex + i, a.columnIndex + j) == Ok(f(a.columnIndex + j, a.rowIndex + i))
  {
    var g := Block(a, f);
    var r, c := a.rowIndex + i, a.columnIndex + j;
    assert g.rowData[i] == BlockRow(a, f, i);
    assert Holds(g, r, c);
    assert (blocks + [g])[..|blocks|] == blocks;
  }

  /** Cells outside an appended block read as they did before it. */
  lemma ReadAround(blocks: seq<GridData>, a: Address, f: (int, int) -> CellData, r: int, c: int)
    requires !(a.rowIndex <= r < a.rowIndex + RowCountOf(a) && a.columnIndex <= c < a.columnIndex + ColumnCountOf(a))
    requires ColumnCountOf(a) >= 1 || r < a.rowIndex || r >= a.rowIndex + RowCountOf(a) || c < a.columnIndex
    ensures ScanBlocks(blocks + [Block(a, f)], r, c) == ScanBlocks(blocks, r, c)
  {
    var g := Block(a, f);
    assert (blocks + [g])[..|blocks|] == blocks;
    if Reaches(g, r, c) {
      assert g.rowData[r - a.rowIndex] == BlockRow(a, f, r - a.rowIndex);
    }
  }

  /**
   * The case ReadAround leaves out: a block with no columns stores each of
   * its rows as `{}`, so from then on a read in those rows, at or right of
   * its start column, throws, whatever earlier blocks held there.
   */
  lemma ColumnlessBlockShadows(blocks: seq<GridData>, a: Address, f: (int, int) -> CellData, r: int, c: int)
    requires ColumnCountOf(a) <= 0
    requires a.rowIndex <= r < a.rowIndex + RowCountOf(a) && a.columnIndex <= c
    ensures ScanBlocks(blocks + [Block(a, f)], r, c) == Err(RowWithoutValues)
  {
    var g := Block(a, f);
    assert g.rowData[r - a.rowIndex] == BlockRow(a, f, r - a.rowIndex);
  }

  // ----- Bounds -----

  /** `gp.rowCount = max(gp.rowCount, ...)`, `gp.columnCount = max(gp.columnCount, ...)`, from 0 x 0. */
  function Grow(bounds: Option<GridProperties>, a: Address): (g: GridProperties)
    ensures bounds.Some? ==> g.rowCount >= bounds.value.rowCount && g.columnCount >= bounds.value.columnCount
    ensures g.rowCount >= a.rowIndex + RowCountOf(a) && g.columnCount >= a.columnIndex + ColumnCountOf(a)
    ensures g.rowCount >= 0 && g.columnCount >= 0
    ensures var gp := bounds.GetOr(GridProperties(0, 0));
            && g.rowCount in {gp.rowCount, 0, a.rowIndex + RowCountOf(a)}
            && g.columnCount in {gp.columnCount, 0, a.columnIndex + ColumnCountOf(a)}
  {
    var gp := bounds.GetOr(GridProperties(0, 0));
    GridProperties(Max(Max(gp.rowCount, 0), a.rowIndex + RowCountOf(a)),
                   Max(Max(gp.columnCount, 0), a.columnIndex + ColumnCountOf(a)))
  }

  /** Block g lies within the bounds: its rows and the cells of each row. */
  predicate Within(g: GridData, gp: GridProperties)
  {
    && g.startRow >= 0 && g.startColumn >= 0
    && g.startRow + |g.rowData| <= gp.rowCount
    && forall i :: 0 <= i < |g.rowData| && g.rowData[i].Values? ==>
         g.startColumn + |g.rowData[i].values| <= gp.columnCount
  }

  /** The log and the bounds agree: no bounds before the first write, every block inside them after. */
  predicate Bounded(bounds: Option<GridProperties>, blocks: seq<GridData>)
  {
    && (bounds.None? ==> blocks == [])
    && (bounds.Some? ==>
          && bounds.value.rowCount >= 0 && bounds.value.columnCount >= 0
          && forall k :: 0 <= k < |blocks| ==> Within(blocks[k], bounds.value))
  }

  /** Appending a block and growing the bounds keeps every block inside them. */
  lemma GrowKeepsBounded(bounds: Option<GridProperties>, blocks: seq<GridData>, a: Address, f: (int, int) -> CellData)
    requires Bounded(bounds, blocks)
    requires a.rowIndex >= 0 && a.columnIndex >= 0 && RowCountOf(a) >= 0
    ensures Bounded(Some(Grow(bounds, a)), blocks + [Block(a, f)])
  {
    var gp := Grow(bounds, a);
    var g := Block(a, f);
    forall i | 0 <= i < |g.rowData| && g.rowData[i].Values?
      ensures g.startColumn + |g.rowData[i].values| <= gp.columnCount
    {
      assert g.rowData[i] == BlockRow(a, f, i);
    }
    forall k | 0 <= k < |blocks + [g]|
      ensures Within((blocks + [g])[k], gp)
    {
      if k < |blocks| {
        assert (blocks + [g])[k] == blocks[k];
      }
    }
  }

  /** Within bounded blocks, nothing outside the bounds was ever written. */
  lemma OutsideUnwritten(gp: GridProperties, blocks: seq<GridData>, r: int, c: int)
    requires Bounded(Some(gp), blocks)
    requires r >= gp.rowCount || c >= gp.columnCount
    ensures forall k :: 0 <= k < |blocks| ==> !Holds(blocks[k], r, c)
  {
    forall k | 0 <= k < |blocks|
      ensures !Holds(blocks[k], r, c)
    {
      assert Within(blocks[k], gp);
    }
  }

  class Sheet {
    /** `properties.title` */
    var title: Option<JsValue>
    /** `properties.gridProperties` */
    var gridProperties: Option<GridProperties>
    /** `data`: the log of written blocks, oldest first. */
    var data: seq<GridData>

    ghost predicate Valid()
      reads this
    {
      Bounded(gridProperties, data)
    }

    constructor ()
      ensures Valid()
      ensures title.None? && gridProperties.None? && data == []
    {
      title, gridProperties, data := None, None, [];
    }

    /**
     * `setGridData(range, f)`: on a range that resolves, appends exactly one
     * block, whose cell (i, j) is f(columnIndex + j, rowIndex + i), and grows
     * the bounds to cover it; earlier blocks stay as they were.
     */
    method SetGridData(tables: ColumnTables, range: Range, f: (int, int) -> CellData) returns (r: Result<(), SheetError>)
      requires Valid() && tables.Valid()
      modifies this, tables
      ensures Valid() && tables.Valid()
      ensures |tables.indexToAlpha| == ResolvePrepared(old(|tables.indexToAlpha|), range)
      ensures title == old(title)
      ensures var resolved := ResolveResult(|tables.indexToAlpha|, range);
              match resolved
              case Err(e) =>
                r == Err(e) && data == old(data) && gridProperties == old(gridProperties)
              case Ok(a) =>
                && r == Ok(())
                && data == old(data) + [Block(a, f)]
                && gridProperties == Some(Grow(old(gridProperties), a))
    {
      var resolved := ResolveRange(tables, range);
      if resolved.Err? {
        return Err(resolved.error);
      }
      AppendBlock(resolved.value, f);
      r := Ok(());
    }

    /** The rest of setGridData once the range has resolved to a: build the block, push it, grow the bounds. */
    method AppendBlock(a: Address, f: (int, int) -> CellData)
      requires Valid()
      requires a.rowIndex >= 0 && a.columnIndex >= 0 && RowCountOf(a) >= 0
      modifies this
      ensures Valid()
      ensures title == old(title)
      ensures data == old(data) + [Block(a, f)]
      ensures gridProperties == Some(Grow(old(gridProperties), a))
    {
      var gridData := BuildBlock(a, f);
      // Grow the bounds to cover the new block.
      var gp := gridProperties.GetOr(GridProperties(0, 0));
      var grown := GridProperties(Max(Max(gp.rowCount, 0), a.rowIndex + RowCountOf(a)),
                                  Max(Max(gp.columnCount, 0), a.columnIndex + ColumnCountOf(a)));
      GrowKeepsBounded(gridProperties, data, a, f);
      data, gridProperties := data + [gridData], Some(grown);
    }

    /** `setGridValues(range, values)`: setGridData with each value classified into its cell. */
    method SetGridValues(tables: ColumnTables, range: Range, values: ValueSource) returns (r: Result<(), SheetError>)
      requires Valid() && tables.Valid()
      modifies this, tables
      ensures Valid() && tables.Valid()
      ensures |tables.indexToAlpha| == ResolvePrepared(old(|tables.indexToAlpha|), range)
      ensures title == old(title)
      ensures var resolved := ResolveResult(|tables.indexToAlpha|, range);
              match resolved
              case Err(e) =>
                r == Err(e) && data == old(data) && gridProperties == old(gridProperties)
              case Ok(a) =>
                && r == Ok(())
                && data == old(data) + [Block(a, CellsOf(values))]
                && gridProperties == Some(Grow(old(gridProperties), a))
    {
      r := SetGridData(tables, range, CellsOf(values));
    }

    /** The loop of getGridCell: newest block first. */
    method Scan(row: int, column: int) returns (res: Result<CellData, SheetError>)
      ensures res == ScanBlocks(data, row, column)
    {
      var k := |data|;
      assert data[..k] == data;
      while k > 0
        invariant 0 <= k <= |data|
        invariant ScanBlocks(data, row, column) == ScanBlocks(data[..k], row, column)
      {
        var gridData := data[k - 1];
        assert data[..k][..k - 1] == data[..k - 1];
        k := k - 1;
        if column < gridData.startColumn { continue; }
        if row < gridData.startRow { continue; }
        if row >= gridData.startRow + |gridData.rowData| { continue; }
        var rowData := gridData.rowData[row - gridData.startRow];
        if rowData.NoValues? {
          return Err(RowWithoutValues);
        }
        if column < gridData.startColumn + |rowData.values| {
          return Ok(rowData.values[column - gridData.startColumn]);
        }
      }
      res := Ok(EMPTY_CELL);
    }

    /** `getGridCell(address)` */
    method GetGridCell(tables: ColumnTables, address: Range) returns (r: Result<Option<CellData>, SheetError>)
      requires Valid() && tables.Valid()
      modifies tables
      ensures tables.Valid()
      ensures |tables.indexToAlpha| == ResolvePrepared(old(|tables.indexToAlpha|), address)
      ensures var resolved := ResolveResult(|tables.indexToAlpha|, address);
              match resolved
              case Err(e) => r == Err(e)
              case Ok(a) => r == ReadCell(gridProperties, data, a)
    {
      var resolved := ResolveRange(tables, address);
      if resolved.Err? {
        return Err(resolved.error);
      }
      var a := resolved.value;
      if gridProperties.None? || !(a.rowIndex < gridProperties.value.rowCount)
        || !(a.columnIndex < gridProperties.value.columnCount) {
        r := Ok(None);
        assert r == ReadCell(gridProperties, data, a);
        return;
      }
      var cell := Scan(a.rowIndex, a.columnIndex);
      r := if cell.Ok? then Ok(Some(cell.value)) else Err(cell.error);
      assert r == ReadCell(gridProperties, data, a);
    }
  }

  /**
   * After a write to the address a (both counts at least 1), every cell of the
   * block reads back as written, whatever was written before.
   */
  lemma WrittenCellReadsBack(bounds: Option<GridProperties>, blocks: seq<GridData>, a: Address,
                             f: (int, int) -> CellData, i: int, j: int)
    requires 0 <= i < RowCountOf(a) && 0 <= j < ColumnCountOf(a)
    ensures ReadCell(Some(Grow(bounds, a)), blocks + [Block(a, f)],
                     Address(a.rowIndex + i, a.columnIndex + j, None, None))
            == Ok(Some(f(a.columnIndex + j, a.rowIndex + i)))
  {
    ReadBack(blocks, a, f, i, j);
  }

  /** setGridValues stores each value classified: formulas, strings, numbers, booleans, or `{}`. */
  lemma WrittenValueReadsBack(bounds: Option<GridProperties>, blocks: seq<GridData>, a: Address,
                              values: ValueSource, i: int, j: int)
    requires 0 <= i < RowCountOf(a) && 0 <= j < ColumnCountOf(a)
    ensures var v := ValueAt(values, a.columnIndex + j, a.rowIndex + i);
            ReadCell(Some(Grow(bounds, a)), blocks + [Block(a, CellsOf(values))],
                     Address(a.rowIndex + i, a.columnIndex + j, None, None))
            == Ok(Some(CellData(Classify(v))))
  {
    WrittenCellReadsBack(bounds, blocks, a, CellsOf(values), i, j);
  }

  class Spreadsheet {
    /** `sheets` */
    var sheets: seq<Sheet>

    constructor ()
      ensures sheets == []
    {
      sheets := [];
    }

    /** `addSheet(title)`: appends one new, empty sheet; its title is set only when truthy. */
    method AddSheet(title: JsValue) returns (sheet: Sheet)
      modifies this
      ensures fresh(sheet)
      ensures sheets == old(sheets) + [sheet]
      ensures sheet.Valid() && sheet.data == [] && sheet.gridProperties.None?
      ensures sheet.title == (if Truthy(title) then Some(title) else None)
    {
      sheet := new Sheet();
      if Truthy(title) {
        sheet.title := Some(title);
      }
      sheets := sheets + [sheet];
    }
  }
}
