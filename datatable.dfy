/**
 A model of the DataTable of src/datatable.ts: an in-memory table with a list
 of typed columns and a growing list of rows of cells.

 Values, cells, rows and columns are Dafny values; the table itself is a class
 whose two fields, `cols` and `rows`, are reassigned by the methods that grow it
 or write into it. The thrown errors of the original are returned as data.
 */
module DataTables {

  // ---------------------------------------------------------------------------
  // Results
  // ---------------------------------------------------------------------------

  /** Which of the two index gates rejected an index. */
  datatype IndexKind = RowIndex | ColumnIndex

  /** The errors the table raises. */
  datatype Error =
    | /** An index outside [0, count - 1]; `count` is the number of rows or columns. */
      IndexError(kind: IndexKind, index: int, count: nat)
    | /** A value that does not conform to the declared type of column `column`. */
      TypeMismatch(value: Value, expected: ColumnType, column: int)
    | /** Both indexes are in range, but the row is shorter than the column list
          (only a row added from a short cell array can be): the original crashes
          on the missing cell. */
      MissingCell(row: int, column: int)

  /** The result of an accessor that returns a value or throws. */
  datatype Result<T> = Ok(value: T) | Err(error: Error)

  /** The result of an operation that returns nothing or throws. */
  datatype Outcome = Pass | Fail(error: Error)

  datatype Option<T> = None | Some(value: T)

  // ---------------------------------------------------------------------------
  // Values, cells, rows, columns
  // ---------------------------------------------------------------------------

  /** The six column type tags. */
  datatype ColumnType = StringType | NumberType | BooleanType | DateType | DateTimeType | TimeOfDayType

  /** The tag as the source spells it. */
  function TypeName(t: ColumnType): (name: string)
  {
    match t
    case StringType => "string"
    case NumberType => "number"
    case BooleanType => "boolean"
    case DateType => "date"
    case DateTimeType => "datetime"
    case TimeOfDayType => "timeofday"
  }

  /**
   The values a cell can hold. Numbers and dates are opaque payloads (no
   arithmetic, no calendar); `Obj` stands for any other object, by identity.
   */
  datatype Value =
    | Str(s: string)
    | Num(n: real)
    | Bool(b: bool)
    | Date(time: int)
    | Arr(items: seq<Value>)
    | Null
    | Obj(ref: nat)

  /** The host language's `typeof` on the values above. */
  function TypeOf(v: Value): (name: string)
    ensures name == "string" <==> v.Str?
    ensures name == "number" <==> v.Num?
    ensures name == "boolean" <==> v.Bool?
    ensures name == "object" <==> !(v.Str? || v.Num? || v.Bool?)
    ensures v == Null ==> name == "object"
  {
    match v
    case Str(_) => "string"
    case Num(_) => "number"
    case Bool(_) => "boolean"
    case _ => "object"
  }

  /** A cell's opaque custom property map, carried without interpretation. */
  type Props = map<string, Value>

  /** A cell: its value, an optional display string and optional properties. */
  datatype Cell = Cell(v: Value, f: Option<string>, p: Option<Props>)

  /** The cell every implicitly created cell is: a null value, nothing else. */
  function NullCell(): (cell: Cell)
  {
    Cell(Null, None, None)
  }

  /** A row: its cells, positionally aligned with the columns. */
  datatype Row = Row(c: seq<Cell>)
  {
    /** Appends one cell at the end of the row. */
    function AddCell(cell: Cell): (r: Row)
      ensures |r.c| == |c| + 1
      ensures r.c[..|c|] == c && r.c[|c|] == cell
    {
      Row(c + [cell])
    }
  }

  /** A column descriptor. */
  datatype Column = Column(id: string, columnLabel: string, columnType: ColumnType)

  /** An optional string argument with the empty string as its default. */
  function OrEmpty(s: Option<string>): (r: string)
    ensures s.Some? ==> r == s.value
    ensures s.None? ==> r == ""
  {
    if s.Some? then s.value else ""
  }

  /** An element of a cell array handed to addRow: a bare value or a cell object. */
  datatype Entry = Raw(raw: Value) | CellSpec(cell: Cell)

  /** The value an entry supplies for its cell. */
  function EntryValue(e: Entry): (v: Value)
  {
    match e
    case Raw(x) => x
    case CellSpec(cell) => cell.v
  }

  /** The cell addRow stores for one entry: a cell object as it is, a bare value wrapped. */
  function CellOf(e: Entry): (cell: Cell)
    ensures cell.v == EntryValue(e)
    ensures e.CellSpec? ==> cell == e.cell
    ensures e.Raw? ==> cell.f.None? && cell.p.None?
  {
    match e
    case Raw(x) => Cell(x, None, None)
    case CellSpec(cell) => cell
  }

  /** The row addRow builds from a cell array, one addCell per entry in order. */
  function RowOf(entries: seq<Entry>): (row: Row)
    ensures |row.c| == |entries|
    ensures forall k :: 0 <= k < |entries| ==> row.c[k] == CellOf(entries[k])
  {
    if entries == [] then Row([])
    else RowOf(entries[..|entries| - 1]).AddCell(CellOf(entries[|entries| - 1]))
  }

  /** RowOf is the only row with one CellOf per entry. */
  lemma RowOfUnique(entries: seq<Entry>, row: Row)
    requires |row.c| == |entries|
    requires forall k :: 0 <= k < |entries| ==> row.c[k] == CellOf(entries[k])
    ensures row == RowOf(entries)
  {
  }

  /** The cell array addRow synthesises when it is given none: n null cell objects. */
  function BlankEntries(n: nat): (entries: seq<Entry>)
  {
    seq(n, _ => CellSpec(NullCell()))
  }

  /** The row addRow appends when it is given no cell array, for n columns. */
  function EmptyRow(n: nat): (row: Row)
    ensures |row.c| == n
    ensures forall k :: 0 <= k < n ==> row.c[k] == NullCell()
  {
    RowOf(BlankEntries(n))
  }

  /** n null cells: what addColumn appends, one per call, to an existing row. */
  function NullCells(n: nat): (cells: seq<Cell>)
  {
    seq(n, _ => NullCell())
  }

  /**
   The type check of setValue: a date column wants a Date, a timeofday column an
   array of exactly four elements, and every other column a value whose `typeof`
   is the column's tag.
   */
  function Conforms(t: ColumnType, value: Value): (ok: bool)
    ensures ok <==> match t
                    case StringType => value.Str?
                    case NumberType => value.Num?
                    case BooleanType => value.Bool?
                    case DateType => value.Date?
                    case DateTimeType => false
                    case TimeOfDayType => value.Arr? && |value.items| == 4
    ensures t == DateTimeType ==> !ok
    ensures value == Null ==> !ok
  {
    match t
    case DateType => value.Date?
    case TimeOfDayType => value.Arr? && |value.items| == 4
    case _ => TypeOf(value) == TypeName(t)
  }

  /** Every row has exactly `width` cells. */
  predicate AlignedRows(width: nat, rows: seq<Row>)
    ensures AlignedRows(width, rows) <==> forall row :: row in rows ==> |row.c| == width
    ensures rows == [] ==> AlignedRows(width, rows)
  {
    forall k :: 0 <= k < |rows| ==> |rows[k].c| == width
  }

  lemma ConcatAssoc<T>(a: seq<T>, b: seq<T>, c: seq<T>)
    ensures (a + b) + c == a + (b + c)
  {
  }

  /** One more row spec adds its row at the end. */
  lemma RowsOfStep(specs: seq<RowSpec>, j: nat)
    requires j < |specs|
    ensures RowsOf(specs[..j + 1]) == RowsOf(specs[..j]) + [RowOf(specs[j].c)]
  {
  }

  /** Two lists of rows are each `width` cells wide exactly when their concatenation is. */
  lemma AlignedConcat(width: nat, front: seq<Row>, back: seq<Row>)
    ensures AlignedRows(width, front + back) <==> AlignedRows(width, front) && AlignedRows(width, back)
  {
  }

  /** Every row gains n null cells, as after n calls of addColumn. */
  function PadRows(rs: seq<Row>, n: nat): (padded: seq<Row>)
    ensures |padded| == |rs|
  {
    seq(|rs|, k requires 0 <= k < |rs| => Row(rs[k].c + NullCells(n)))
  }

  /** Padding by no cells changes nothing. */
  lemma PadRowsZero(rs: seq<Row>)
    ensures PadRows(rs, 0) == rs
  {
    assert NullCells(0) == [];
    forall k | 0 <= k < |rs|
      ensures PadRows(rs, 0)[k] == rs[k]
    {
      assert rs[k].c + [] == rs[k].c;
    }
  }

  /** One more null cell on every padded row is one more step of padding. */
  lemma PadRowsStep(rs: seq<Row>, n: nat, mid: seq<Row>, after: seq<Row>)
    requires mid == PadRows(rs, n)
    requires |after| == |mid|
    requires forall k :: 0 <= k < |mid| ==> after[k].c == mid[k].c + [NullCell()]
    ensures after == PadRows(rs, n + 1)
  {
    assert NullCells(n + 1) == NullCells(n) + [NullCell()];
    forall k | 0 <= k < |after|
      ensures after[k] == PadRows(rs, n + 1)[k]
    {
      assert after[k].c == rs[k].c + NullCells(n + 1);
    }
  }

  /** Padding every row by n cells keeps alignment, against n more columns, exactly. */
  lemma AlignedPadded(width: nat, rs: seq<Row>, n: nat)
    ensures AlignedRows(width + n, PadRows(rs, n)) <==> AlignedRows(width, rs)
  {
    var padded := PadRows(rs, n);
    forall k | 0 <= k < |rs|
      ensures |padded[k].c| == |rs[k].c| + n
    {
      assert padded[k] == Row(rs[k].c + NullCells(n));
    }
  }

  /**
   After loading, every row is as wide as the columns exactly when it was so
   before and every loaded cell array has one entry per column.
   */
  lemma LoadedAligned(oldCols: seq<Column>, oldRows: seq<Row>, data: TableData, newCols: seq<Column>, newRows: seq<Row>)
    requires newCols == oldCols + ColumnsOf(data.cols)
    requires newRows == PadRows(oldRows, |data.cols|) + RowsOf(data.rows)
    ensures AlignedRows(|newCols|, newRows)
            <==> AlignedRows(|oldCols|, oldRows) && forall k :: 0 <= k < |data.rows| ==> |data.rows[k].c| == |newCols|
  {
    AlignedConcat(|newCols|, PadRows(oldRows, |data.cols|), RowsOf(data.rows));
    AlignedPadded(|oldCols|, oldRows, |data.cols|);
  }

  /** Loading into an empty table yields exactly the described columns and rows. */
  lemma LoadedIntoEmpty(data: TableData, cs: seq<Column>, rs: seq<Row>)
    requires cs == [] + ColumnsOf(data.cols)
    requires rs == PadRows([], |data.cols|) + RowsOf(data.rows)
    ensures cs == ColumnsOf(data.cols) && rs == RowsOf(data.rows)
  {
  }

  /** The column addColumn appends for a column spec. */
  function ColumnOf(spec: ColumnSpec): (col: Column)
    ensures col.columnType == spec.columnType
    ensures col.id == OrEmpty(spec.id) && col.columnLabel == OrEmpty(spec.columnLabel)
    ensures spec.id.None? ==> col.id == ""
    ensures spec.columnLabel.None? ==> col.columnLabel == ""
  {
    Column(OrEmpty(spec.id), OrEmpty(spec.columnLabel), spec.columnType)
  }

  /** The columns loadData appends, one addColumn per spec in order. */
  function ColumnsOf(specs: seq<ColumnSpec>): (cs: seq<Column>)
    ensures |cs| == |specs|
    ensures forall k :: 0 <= k < |specs| ==> cs[k] == ColumnOf(specs[k])
  {
    if specs == [] then []
    else ColumnsOf(specs[..|specs| - 1]) + [ColumnOf(specs[|specs| - 1])]
  }

  /** One more column spec adds its column at the end. */
  lemma ColumnsOfStep(specs: seq<ColumnSpec>, i: nat)
    requires i < |specs|
    ensures ColumnsOf(specs[..i + 1]) == ColumnsOf(specs[..i]) + [ColumnOf(specs[i])]
  {
  }

  /** The rows loadData appends, one addRow per spec in order. */
  function RowsOf(specs: seq<RowSpec>): (rs: seq<Row>)
    ensures |rs| == |specs|
    ensures forall k :: 0 <= k < |specs| ==> rs[k] == RowOf(specs[k].c)
  {
    if specs == [] then []
    else RowsOf(specs[..|specs| - 1]) + [RowOf(specs[|specs| - 1].c)]
  }

  /** A column spec of the bulk-load description. */
  datatype ColumnSpec = ColumnSpec(columnType: ColumnType, columnLabel: Option<string>, id: Option<string>)

  /** A row spec of the bulk-load description: its cell array. */
  datatype RowSpec = RowSpec(c: seq<Entry>)

  /** The bulk-load description: column specs, then row specs. */
  datatype TableData = TableData(cols: seq<ColumnSpec>, rows: seq<RowSpec>)

  // ---------------------------------------------------------------------------
  // The table
  // ---------------------------------------------------------------------------

  class DataTable {
    var cols: seq<Column>
    var rows: seq<Row>

    /** Every row has one cell per column. */
    ghost predicate Aligned()
      reads this
    {
      AlignedRows(|cols|, rows)
    }

    /** An empty table. */
    constructor ()
      ensures cols == [] && rows == []
      ensures Aligned()
    {
      cols := [];
      rows := [];
    }

    /** A table loaded from a description, columns first, then rows. */
    constructor FromData(data: TableData)
      ensures cols == ColumnsOf(data.cols)
      ensures rows == RowsOf(data.rows)
      ensures Aligned() <==> forall k :: 0 <= k < |data.rows| ==> |data.rows[k].c| == |data.cols|
      ensures forall i, j :: 0 <= i < |data.rows| && 0 <= j < |data.cols| && j < |data.rows[i].c| ==>
                GetValue(i, j) == Ok(EntryValue(data.rows[i].c[j]))
    {
      cols := [];
      rows := [];
      new;
      LoadData(data);
      LoadedIntoEmpty(data, cols, rows);
      ReadBackLoaded(this, data);
    }

    /** Every loaded value reads back through getValue. */
    static lemma ReadBackLoaded(t: DataTable, data: TableData)
      requires t.cols == ColumnsOf(data.cols) && t.rows == RowsOf(data.rows)
      ensures forall i, j :: 0 <= i < |data.rows| && 0 <= j < |data.cols| && j < |data.rows[i].c| ==>
                t.GetValue(i, j) == Ok(EntryValue(data.rows[i].c[j]))
    {
    }

    /** Replays addColumn for every column spec, then addRow for every row spec. */
    method LoadData(data: TableData)
      modifies this
      ensures cols == old(cols) + ColumnsOf(data.cols)
      ensures rows == PadRows(old(rows), |data.cols|) + RowsOf(data.rows)
      ensures Aligned() <==> old(Aligned()) && forall k :: 0 <= k < |data.rows| ==> |data.rows[k].c| == |cols|
    {
      LoadColumns(data.cols);
      LoadRows(data.rows);
      LoadedAligned(old(cols), old(rows), data, cols, rows);
    }

    /** The first loop of loadData: one addColumn per column description, in order. */
    method LoadColumns(specs: seq<ColumnSpec>)
      modifies this
      ensures cols == old(cols) + ColumnsOf(specs)
      ensures rows == PadRows(old(rows), |specs|)
    {
      PadRowsZero(rows);
      var i := 0;
      while i < |specs|
        invariant 0 <= i <= |specs|
        invariant cols == old(cols) + ColumnsOf(specs[..i])
        invariant rows == PadRows(old(rows), i)
      {
        var spec := specs[i];
        ghost var before, beforeCols := rows, cols;
        var _ := AddColumn(spec.columnType, spec.columnLabel, spec.id);
        PadRowsStep(old(rows), i, before, rows);
        ColumnsOfStep(specs, i);
        assert cols == beforeCols + [ColumnOf(spec)];
        ConcatAssoc(old(cols), ColumnsOf(specs[..i]), [ColumnOf(spec)]);
        i := i + 1;
      }
      assert specs[..i] == specs;
    }

    /** The second loop of loadData: one addRow per row description, in order. */
    method LoadRows(specs: seq<RowSpec>)
      modifies this
      ensures cols == old(cols)
      ensures rows == old(rows) + RowsOf(specs)
    {
      var j := 0;
      while j < |specs|
        invariant 0 <= j <= |specs|
        invariant cols == old(cols)
        invariant rows == old(rows) + RowsOf(specs[..j])
      {
        ghost var before := rows;
        var _ := AddRow(Some(specs[j].c));
        RowsOfStep(specs, j);
        assert rows == before + [RowOf(specs[j].c)];
        ConcatAssoc(old(rows), RowsOf(specs[..j]), [RowOf(specs[j].c)]);
        j := j + 1;
      }
      assert specs[..j] == specs;
    }

    /**
     Appends a column (label and id default to the empty string), appends one
     null cell to every existing row, and returns the new column's index.
     */
    method AddColumn(columnType: ColumnType, columnLabel: Option<string>, id: Option<string>) returns (index: int)
      modifies this
      ensures index == |old(cols)|
      ensures cols == old(cols) + [Column(OrEmpty(id), OrEmpty(columnLabel), columnType)]
      ensures |rows| == |old(rows)|
      ensures forall k :: 0 <= k < |rows| ==> rows[k].c == old(rows)[k].c + [NullCell()]
      ensures Aligned() <==> old(Aligned())
      ensures GetColumnType(index) == Ok(columnType)
      ensures GetColumnId(index) == Ok(OrEmpty(id)) && GetColumnLabel(index) == Ok(OrEmpty(columnLabel))
      ensures old(Aligned()) ==> forall k :: 0 <= k < |rows| ==> GetValue(k, index) == Ok(Null)
    {
      cols := cols + [Column(OrEmpty(id), OrEmpty(columnLabel), columnType)];
      index := |cols| - 1;
      if |rows| > 0 {
        var i := 0;
        while i < |rows|
          invariant 0 <= i <= |rows| == |old(rows)|
          invariant cols == old(cols) + [Column(OrEmpty(id), OrEmpty(columnLabel), columnType)]
          invariant forall k :: 0 <= k < i ==> rows[k].c == old(rows)[k].c + [NullCell()]
          invariant forall k :: i <= k < |rows| ==> rows[k] == old(rows)[k]
        {
          rows := rows[i := rows[i].AddCell(NullCell())];
          i := i + 1;
        }
      }
    }

    /**
     Appends a row and returns its index. Without a cell array the row has one
     null cell per column; with one, it has exactly one cell per entry, however
     many columns there are.
     */
    method AddRow(cellArray: Option<seq<Entry>>) returns (index: int)
      modifies this
      ensures cols == old(cols)
      ensures index == |old(rows)|
      ensures rows == old(rows) + [if cellArray.Some? then RowOf(cellArray.value) else EmptyRow(|cols|)]
      ensures Aligned() <==> old(Aligned()) && (cellArray.Some? ==> |cellArray.value| == |cols|)
      ensures cellArray.None? ==> forall j :: 0 <= j < |cols| ==> GetValue(index, j) == Ok(Null)
      ensures cellArray.Some? ==> forall j :: 0 <= j < |cols| && j < |cellArray.value| ==>
                GetValue(index, j) == Ok(EntryValue(cellArray.value[j]))
    {
      var entries: seq<Entry>;
      if cellArray.None? {
        entries := [];
        var i := 0;
        while i < |cols|
          invariant 0 <= i <= |cols|
          invariant entries == BlankEntries(i)
        {
          entries := entries + [CellSpec(NullCell())];
          assert entries == BlankEntries(i + 1);
          i := i + 1;
        }
      } else {
        entries := cellArray.value;
      }
      var row := Row([]);
      var i := 0;
      while i < |entries|
        invariant 0 <= i <= |entries|
        invariant |row.c| == i
        invariant forall k :: 0 <= k < i ==> row.c[k] == CellOf(entries[k])
      {
        var entry := entries[i];
        var cell: Cell;
        if entry.CellSpec? {
          cell := entry.cell;
        } else {
          cell := Cell(entry.raw, None, None);
        }
        row := row.AddCell(cell);
        i := i + 1;
      }
      RowOfUnique(entries, row);
      assert cellArray.None? ==> entries == BlankEntries(|cols|);
      AlignedConcat(|cols|, rows, [row]);
      rows := rows + [row];
      index := |rows| - 1;
      assert rows[index] == row;
    }

    /**
     The numeric form of addRows: appends max(n, 0) empty rows and returns the
     index of the last one, or 0 when none was appended.
     */
    method AddRowsCount(n: int) returns (index: int)
      modifies this
      ensures cols == old(cols)
      ensures index == if n <= 0 then 0 else |old(rows)| + n - 1
      ensures |rows| == |old(rows)| + (if n <= 0 then 0 else n) && rows[..|old(rows)|] == old(rows)
      ensures forall k :: |old(rows)| <= k < |rows| ==> rows[k] == EmptyRow(|cols|)
      ensures old(Aligned()) ==> Aligned()
    {
      index := 0;
      var i := 0;
      while i < n
        invariant 0 <= i && (n <= 0 ==> i == 0) && (n > 0 ==> i <= n)
        invariant cols == old(cols)
        invariant |rows| == |old(rows)| + i && rows[..|old(rows)|] == old(rows)
        invariant forall k :: |old(rows)| <= k < |rows| ==> rows[k] == EmptyRow(|cols|)
        invariant index == if i == 0 then 0 else |old(rows)| + i - 1
        invariant old(Aligned()) ==> Aligned()
      {
        index := AddRow(None);
        i := i + 1;
      }
    }

    /**
     The array form of addRows: appends one row per cell array, in order, and
     returns the index of the last one, or 0 when the list is empty.
     */
    method AddRowsFrom(cellArrays: seq<seq<Entry>>) returns (index: int)
      modifies this
      ensures cols == old(cols)
      ensures index == if |cellArrays| == 0 then 0 else |old(rows)| + |cellArrays| - 1
      ensures |rows| == |old(rows)| + |cellArrays| && rows[..|old(rows)|] == old(rows)
      ensures forall k :: 0 <= k < |cellArrays| ==> rows[|old(rows)| + k] == RowOf(cellArrays[k])
      ensures Aligned() <==> old(Aligned()) && forall k :: 0 <= k < |cellArrays| ==> |cellArrays[k]| == |cols|
    {
      index := 0;
      var i := 0;
      while i < |cellArrays|
        invariant 0 <= i <= |cellArrays|
        invariant cols == old(cols)
        invariant |rows| == |old(rows)| + i && rows[..|old(rows)|] == old(rows)
        invariant forall k :: 0 <= k < i ==> rows[|old(rows)| + k] == RowOf(cellArrays[k])
        invariant index == if i == 0 then 0 else |old(rows)| + i - 1
        invariant Aligned() <==> old(Aligned()) && forall k :: 0 <= k < i ==> |cellArrays[k]| == |cols|
      {
        index := AddRow(Some(cellArrays[i]));
        i := i + 1;
      }
    }

    /** The column gate: passes exactly when 0 <= columnIndex < the number of columns. */
    function ValidColumnIndex(columnIndex: int): (o: Outcome)
      reads this
      ensures o.Pass? <==> 0 <= columnIndex < |cols|
      ensures o.Fail? ==> o.error == IndexError(ColumnIndex, columnIndex, |cols|)
    {
      if 0 <= columnIndex < GetNumberOfColumns() then Pass
      else Fail(IndexError(ColumnIndex, columnIndex, GetNumberOfColumns()))
    }

    /** The row gate: passes exactly when 0 <= rowIndex < the number of rows. */
    function ValidRowIndex(rowIndex: int): (o: Outcome)
      reads this
      ensures o.Pass? <==> 0 <= rowIndex < |rows|
      ensures o.Fail? ==> o.error == IndexError(RowIndex, rowIndex, |rows|)
    {
      if 0 <= rowIndex < GetNumberOfRows() then Pass
      else Fail(IndexError(RowIndex, rowIndex, GetNumberOfRows()))
    }

    function GetNumberOfColumns(): (n: nat)
      reads this
      ensures n == |cols|
    {
      |cols|
    }

    function GetNumberOfRows(): (n: nat)
      reads this
      ensures n == |rows|
    {
      |rows|
    }

    /** The id of a column, after the column gate. */
    function GetColumnId(columnIndex: int): (r: Result<string>)
      reads this
      ensures r.Ok? <==> 0 <= columnIndex < |cols|
      ensures r.Ok? ==> r.value == cols[columnIndex].id
      ensures r.Err? ==> r.error == IndexError(ColumnIndex, columnIndex, |cols|)
    {
      match ValidColumnIndex(columnIndex)
      case Fail(e) => Err(e)
      case Pass => Ok(cols[columnIndex].id)
    }

    /** The label of a column, after the column gate. */
    function GetColumnLabel(columnIndex: int): (r: Result<string>)
      reads this
      ensures r.Ok? <==> 0 <= columnIndex < |cols|
      ensures r.Ok? ==> r.value == cols[columnIndex].columnLabel
      ensures r.Err? ==> r.error == IndexError(ColumnIndex, columnIndex, |cols|)
    {
      match ValidColumnIndex(columnIndex)
      case Fail(e) => Err(e)
      case Pass => Ok(cols[columnIndex].columnLabel)
    }

    /** The type of a column, after the column gate. */
    function GetColumnType(columnIndex: int): (r: Result<ColumnType>)
      reads this
      ensures r.Ok? <==> 0 <= columnIndex < |cols|
      ensures r.Ok? ==> r.value == cols[columnIndex].columnType
      ensures r.Err? ==> r.error == IndexError(ColumnIndex, columnIndex, |cols|)
    {
      match ValidColumnIndex(columnIndex)
      case Fail(e) => Err(e)
      case Pass => Ok(cols[columnIndex].columnType)
    }

    /**
     The value of a cell, after the row gate and then the column gate, so that a
     bad row index is reported even when the column index is bad too.
     */
    function GetValue(rowIndex: int, columnIndex: int): (r: Result<Value>)
      reads this
      ensures !(0 <= rowIndex < |rows|) ==> r == Err(IndexError(RowIndex, rowIndex, |rows|))
      ensures 0 <= rowIndex < |rows| && !(0 <= columnIndex < |cols|) ==>
                r == Err(IndexError(ColumnIndex, columnIndex, |cols|))
      ensures r.Ok? <==> 0 <= rowIndex < |rows| && 0 <= columnIndex < |cols| && columnIndex < |rows[rowIndex].c|
      ensures r.Ok? ==> r.value == rows[rowIndex].c[columnIndex].v
      ensures r.Err? && r.error.MissingCell? ==> r.error == MissingCell(rowIndex, columnIndex)
      ensures 0 <= rowIndex < |rows| && 0 <= columnIndex < |cols| && columnIndex >= |rows[rowIndex].c| ==>
                r == Err(MissingCell(rowIndex, columnIndex))
      ensures Aligned() && 0 <= rowIndex < |rows| && 0 <= columnIndex < |cols| ==> r.Ok?
    {
      match ValidRowIndex(rowIndex)
      case Fail(e) => Err(e)
      case Pass =>
        match ValidColumnIndex(columnIndex)
        case Fail(e) => Err(e)
        case Pass =>
          if columnIndex < |rows[rowIndex].c| then Ok(rows[rowIndex].c[columnIndex].v)
          else Err(MissingCell(rowIndex, columnIndex))
    }

    /**
     Writes `value` into one cell after the row gate, the column gate and the
     type check. Only that cell's value changes; its display string and
     properties stay. On any error nothing changes.
     */
    method SetValue(rowIndex: int, columnIndex: int, value: Value) returns (o: Outcome)
      modifies this
      ensures cols == old(cols) && |rows| == |old(rows)|
      ensures !(0 <= rowIndex < |rows|) ==> o == Fail(IndexError(RowIndex, rowIndex, |rows|))
      ensures 0 <= rowIndex < |rows| && !(0 <= columnIndex < |cols|) ==>
                o == Fail(IndexError(ColumnIndex, columnIndex, |cols|))
      ensures 0 <= rowIndex < |rows| && 0 <= columnIndex < |cols| && !Conforms(cols[columnIndex].columnType, value) ==>
                o == Fail(TypeMismatch(value, cols[columnIndex].columnType, columnIndex))
      ensures o.Pass? <==> && 0 <= rowIndex < |rows| && 0 <= columnIndex < |cols|
                           && Conforms(cols[columnIndex].columnType, value)
                           && columnIndex < |old(rows)[rowIndex].c|
      ensures 0 <= rowIndex < |rows| && 0 <= columnIndex < |cols| && Conforms(cols[columnIndex].columnType, value)
              && columnIndex >= |old(rows)[rowIndex].c| ==>
                o == Fail(MissingCell(rowIndex, columnIndex))
      ensures o.Fail? ==> rows == old(rows)
      ensures o.Pass? ==>
                rows == old(rows)[rowIndex := Row(old(rows)[rowIndex].c[columnIndex := old(rows)[rowIndex].c[columnIndex].(v := value)])]
      ensures o.Pass? ==> GetValue(rowIndex, columnIndex) == Ok(value)
      ensures o.Pass? ==> (&& rows[rowIndex].c[columnIndex].f == old(rows)[rowIndex].c[columnIndex].f
                           && rows[rowIndex].c[columnIndex].p == old(rows)[rowIndex].c[columnIndex].p)
      ensures old(Aligned()) ==> Aligned()
    {
      o := ValidRowIndex(rowIndex);
      if o.Fail? {
        return;
      }
      o := ValidColumnIndex(columnIndex);
      if o.Fail? {
        return;
      }
      var expected := cols[columnIndex].columnType;
      if !Conforms(expected, value) {
        return Fail(TypeMismatch(value, expected, columnIndex));
      }
      var row := rows[rowIndex];
      if columnIndex >= |row.c| {
        return Fail(MissingCell(rowIndex, columnIndex));
      }
      rows := rows[rowIndex := Row(row.c[columnIndex := row.c[columnIndex].(v := value)])];
    }
  }

  // ---------------------------------------------------------------------------
  // The cases of src/datatable.test.ts, replayed against the model
  // ---------------------------------------------------------------------------

  /**
   The `data3x5` table of src/datatable.test.ts:3-36. A Date is written as the
   stamp YYYYMMDDhhmmss of the calendar date it stands for (the months of the
   original's `new Date(2008, 1, 28, ...)` count from 0).
   */
  function Data3x5(): TableData
  {
    TableData(
      [ ColumnSpec(StringType, Some("NEW A"), Some("A")),
        ColumnSpec(NumberType, Some("B-label"), Some("B")),
        ColumnSpec(DateType, Some("C-label"), Some("C")),
        ColumnSpec(BooleanType, Some("D-label"), Some("D")),
        ColumnSpec(TimeOfDayType, Some("E-label"), Some("E")) ],
      [ RowSpec([ CellSpec(Cell(Str("a"), None, None)),
                  CellSpec(Cell(Num(1.0), Some("One"), None)),
                  CellSpec(Cell(Date(20080228003126), Some("2/28/08 12:31 AM"), None)),
                  CellSpec(Cell(Bool(true), None, None)),
                  CellSpec(Cell(Arr([Num(1.0), Num(2.0), Num(3.0), Num(4.0)]), None, None)) ]),
        RowSpec([ CellSpec(Cell(Str("b"), None, None)),
                  CellSpec(Cell(Num(2.0), Some("Two"), None)),
                  CellSpec(Cell(Date(20080330003126), Some("3/30/08 12:31 AM"), None)),
                  CellSpec(Cell(Bool(false), None, None)),
                  CellSpec(Cell(Arr([Num(2.0), Num(3.0), Num(4.0), Num(5.0)]), None, None)) ]),
        RowSpec([ CellSpec(Cell(Str("c"), None, None)),
                  CellSpec(Cell(Num(3.0), Some("Three"), None)),
                  CellSpec(Cell(Date(20080430003126), Some("4/30/08 12:31 AM"), None)),
                  CellSpec(Cell(Bool(true), None, None)),
                  CellSpec(Cell(Arr([Num(1.0), Num(2.0), Num(3.0), Num(4.0)]), None, None)) ]) ])
  }

  /** A fresh table loaded from data3x5: five columns, three aligned rows. */
  method NewData3x5() returns (t: DataTable)
    ensures fresh(t)
    ensures t.cols == ColumnsOf(Data3x5().cols) && t.rows == RowsOf(Data3x5().rows)
    ensures |t.cols| == 5 && |t.rows| == 3 && t.Aligned()
  {
    Data3x5Widths();
    t := new DataTable.FromData(Data3x5());
  }

  /** Every row of data3x5 has one entry per column. */
  lemma Data3x5Widths()
    ensures |Data3x5().cols| == 5 && |Data3x5().rows| == 3
    ensures forall k :: 0 <= k < |Data3x5().rows| ==> |Data3x5().rows[k].c| == |Data3x5().cols|
  {
  }

  /** src/datatable.test.ts:39-43 and 45-55: an empty table, and one loaded from data3x5. */
  method ScenarioCreate()
  {
    var empty := new DataTable();
    assert empty.GetNumberOfColumns() == 0 && empty.GetNumberOfRows() == 0;
    var t := new DataTable.FromData(Data3x5());
    assert t.GetNumberOfColumns() == 5 && t.GetNumberOfRows() == 3;
    assert |t.rows[0].c| == 5;
    assert t.rows[0].c[1] == Cell(Num(1.0), Some("One"), None);
  }

  /** src/datatable.test.ts:57-63: the first column of an empty table has index 0. */
  method ScenarioAddColumnToEmpty()
  {
    var t := new DataTable();
    var index := t.AddColumn(StringType, Some("S1"), Some("s_1"));
    assert index == 0;
    assert t.GetNumberOfColumns() == 1 && t.GetNumberOfRows() == 0;
  }

  /** src/datatable.test.ts:65-75: a sixth column gives every loaded row a null cell. */
  method ScenarioAddColumnToLoaded()
  {
    var t := NewData3x5();
    var index := t.AddColumn(StringType, Some("F-label"), Some("F"));
    assert index == 5;
    assert t.GetNumberOfColumns() == 6 && t.GetNumberOfRows() == 3;
    assert t.GetValue(0, 5) == Ok(Null) && t.GetValue(1, 5) == Ok(Null) && t.GetValue(2, 5) == Ok(Null);
  }

  /** src/datatable.test.ts:77-86: addRow() on two columns appends a row of two null cells. */
  method ScenarioAddEmptyRow()
  {
    var t := new DataTable();
    var _ := t.AddColumn(StringType, Some("A-label"), Some("A"));
    var _ := t.AddColumn(StringType, Some("B-label"), Some("B"));
    var index := t.AddRow(None);
    assert index == 0 && t.GetNumberOfRows() == 1;
    assert t.GetValue(0, 0) == Ok(Null) && t.GetValue(0, 1) == Ok(Null);
  }

  /**
   src/datatable.test.ts:88-93, 95-104 and 106-111: a bare string next to a bare
   Date, next to a cell object, and next to a null entry; a row gets one cell per
   entry whatever the column count.
   */
  method ScenarioAddRowFromArray()
  {
    var s := new DataTable();
    var index := s.AddRow(Some([Raw(Str("Hermione")), Raw(Date(19990101000000))]));
    assert index == 0 && s.GetNumberOfRows() == 1;
    var t := new DataTable();
    index := t.AddRow(Some([Raw(Str("Hermione")), CellSpec(Cell(Date(19990101000000), Some("January First, Nineteen ninety-nine"), None))]));
    assert index == 0 && t.GetNumberOfRows() == 1;
    assert t.rows[0].c[0] == Cell(Str("Hermione"), None, None);
    var u := new DataTable();
    index := u.AddRow(Some([Raw(Str("Col1Val")), Raw(Null), Raw(Str("Col3Val"))]));
    assert index == 0 && u.GetNumberOfRows() == 1;
    assert |u.rows[0].c| == 3 && u.rows[0].c[1].v == Null;
  }

  /** src/datatable.test.ts:113-118: addRows(5) on an empty table returns 4. */
  method ScenarioAddRowsCount()
  {
    var t := new DataTable();
    var index := t.AddRowsCount(5);
    assert index == 4 && t.GetNumberOfRows() == 5;
  }

  /** src/datatable.test.ts:120-127: addRows of two cell arrays returns 1. */
  method ScenarioAddRowsFrom()
  {
    var t := new DataTable();
    var _ := t.AddColumn(StringType, None, None);
    var _ := t.AddColumn(StringType, None, None);
    var index := t.AddRowsFrom([[Raw(Str("R1C1")), Raw(Str("R1C2"))], [Raw(Str("R2C1")), Raw(Str("R2C2"))]]);
    assert index == 1 && t.GetNumberOfRows() == 2;
    assert t.Aligned();
  }

  /**
   src/datatable.test.ts:131-139, 211-218 and 231-238: the counts, the column
   types and the values of row 1 of data3x5.
   */
  method ScenarioGet()
  {
    var t := NewData3x5();
    assert t.GetNumberOfColumns() == 5 && t.GetNumberOfRows() == 3;
    assert t.GetColumnType(0) == Ok(StringType) && t.GetColumnType(1) == Ok(NumberType);
    assert t.GetColumnType(2) == Ok(DateType) && t.GetColumnType(3) == Ok(BooleanType);
    assert t.GetColumnType(4) == Ok(TimeOfDayType);
    assert t.GetValue(1, 0) == Ok(Str("b")) && t.GetValue(1, 1) == Ok(Num(2.0));
    assert t.GetValue(1, 2) == Ok(Date(20080330003126)) && t.GetValue(1, 3) == Ok(Bool(false));
    assert t.GetValue(1, 4) == Ok(Arr([Num(2.0), Num(3.0), Num(4.0), Num(5.0)]));
  }

  /** src/datatable.test.ts:141-163 and 176-198: blank and non-blank ids and labels. */
  method ScenarioColumnIdAndLabel()
  {
    var data := TableData(
      [ ColumnSpec(StringType, Some("NEW A"), Some("A")),
        ColumnSpec(NumberType, Some(""), Some("")),
        ColumnSpec(DateType, Some("C-label"), Some("C")) ],
      []);
    var t := new DataTable.FromData(data);
    assert t.GetColumnId(1) == Ok("") && t.GetColumnId(0) == Ok("A");
    assert t.GetColumnLabel(1) == Ok("") && t.GetColumnLabel(0) == Ok("NEW A");
  }

  /**
   src/datatable.test.ts:165-174, 200-209, 220-229 and 240-260: out-of-range
   indexes fail with the index and the count the message reports.
   */
  method ScenarioGetErrors()
  {
    var t := NewData3x5();
    assert t.GetColumnId(100) == Err(IndexError(ColumnIndex, 100, 5));
    assert t.GetColumnLabel(100) == Err(IndexError(ColumnIndex, 100, 5));
    assert t.GetColumnType(100) == Err(IndexError(ColumnIndex, 100, 5));
    assert t.GetValue(100, 0) == Err(IndexError(RowIndex, 100, 3));
    assert t.GetValue(0, 100) == Err(IndexError(ColumnIndex, 100, 5));
  }

  /** src/datatable.test.ts:264-268: a string into the string column. */
  method ScenarioSetString()
  {
    var t := NewData3x5();
    var o := t.SetValue(0, 0, Str("AA"));
    assert o == Pass && t.rows[0].c[0].v == Str("AA");
  }

  /** src/datatable.test.ts:282-286: a number into the number column. */
  method ScenarioSetNumber()
  {
    var t := NewData3x5();
    var o := t.SetValue(0, 1, Num(42.0));
    assert o == Pass && t.rows[0].c[1].v == Num(42.0);
  }

  /** src/datatable.test.ts:299-303: a boolean into the boolean column. */
  method ScenarioSetBoolean()
  {
    var t := NewData3x5();
    var o := t.SetValue(0, 3, Bool(false));
    assert o == Pass && t.rows[0].c[3].v == Bool(false);
  }

  /** src/datatable.test.ts:316-320: a Date into the date column. */
  method ScenarioSetDate()
  {
    var t := NewData3x5();
    var o := t.SetValue(0, 2, Date(20210228003126));
    assert o == Pass && t.rows[0].c[2].v == Date(20210228003126);
  }

  /** src/datatable.test.ts:333-337: four numbers into the timeofday column. */
  method ScenarioSetTimeOfDay()
  {
    var t := NewData3x5();
    var o := t.SetValue(0, 4, Arr([Num(12.0), Num(30.0), Num(10.0), Num(5.0)]));
    assert o == Pass && t.rows[0].c[4].v == Arr([Num(12.0), Num(30.0), Num(10.0), Num(5.0)]);
  }

  /** src/datatable.test.ts:270-280: a mismatching value for the string column is rejected. */
  method ScenarioSetStringMismatch()
  {
    var t := NewData3x5();
    var o := t.SetValue(0, 0, Num(3.0));
    assert o == Fail(TypeMismatch(Num(3.0), StringType, 0));
  }

  /** src/datatable.test.ts:288-297: a mismatching value for the number column is rejected. */
  method ScenarioSetNumberMismatch()
  {
    var t := NewData3x5();
    var o := t.SetValue(0, 1, Str("ZZ"));
    assert o == Fail(TypeMismatch(Str("ZZ"), NumberType, 1));
  }

  /** src/datatable.test.ts:305-314: a mismatching value for the boolean column is rejected. */
  method ScenarioSetBooleanMismatch()
  {
    var t := NewData3x5();
    var o := t.SetValue(0, 3, Str("ZZ"));
    assert o == Fail(TypeMismatch(Str("ZZ"), BooleanType, 3));
  }

  /** src/datatable.test.ts:322-331: a mismatching value for the date column is rejected. */
  method ScenarioSetDateMismatch()
  {
    var t := NewData3x5();
    var o := t.SetValue(0, 2, Str("ZZ"));
    assert o == Fail(TypeMismatch(Str("ZZ"), DateType, 2));
  }

  /** src/datatable.test.ts:339-348: a mismatching value for the timeofday column is rejected. */
  method ScenarioSetTimeOfDayMismatch()
  {
    var t := NewData3x5();
    var o := t.SetValue(0, 4, Str("ZZ"));
    assert o == Fail(TypeMismatch(Str("ZZ"), TimeOfDayType, 4));
  }

  /** src/datatable.test.ts:350-370: a row index and a column index out of range. */
  method ScenarioSetIndexErrors()
  {
    var t := NewData3x5();
    var o := t.SetValue(10, 1, Str("ZZ"));
    assert o == Fail(IndexError(RowIndex, 10, 3));
    o := t.SetValue(0, 10, Str("ZZ"));
    assert o == Fail(IndexError(ColumnIndex, 10, 5));
  }

  // ---------------------------------------------------------------------------
  // A case no test covers
  // ---------------------------------------------------------------------------

  /** A short cell array breaks alignment; reading or writing past its end is a missing cell. */
  method ScenarioShortRow()
  {
    var t := new DataTable();
    var _ := t.AddColumn(StringType, None, None);
    var _ := t.AddColumn(StringType, None, None);
    var r := t.AddRow(Some([Raw(Str("only"))]));
    assert !t.Aligned();
    assert t.GetValue(r, 0) == Ok(Str("only"));
    assert t.GetValue(r, 1) == Err(MissingCell(0, 1));
    assert t.GetValue(r, 2) == Err(IndexError(ColumnIndex, 2, 2));
    var o := t.SetValue(r, 1, Str("x"));
    assert o == Fail(MissingCell(0, 1));
  }
}
