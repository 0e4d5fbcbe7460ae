# DataTable, modelled in Dafny

This project models the `DataTable` class of `src/datatable.ts`. It is an
in-memory table in the style of the Google Charts DataTable. The table holds a
list of typed columns (`string`, `number`, `boolean`, `date`, `datetime`,
`timeofday`) and a list of rows. Each row is a list of cells, and each cell has
a value `v`, an optional display string `f` and optional properties `p`.

The table is built in these ways:

- empty, or from a bulk description `{cols, rows}` (`loadData`);
- by appending a column (`addColumn`), which gives every existing row a null cell;
- by appending rows: `addRow`, and `addRows` with a count or with a list of cell arrays.

It is read through index-checked accessors. One cell value at a time is
replaced by `setValue`, which checks the value against the column's declared
type.

Everything is in `datatable.dfy`, in the module `DataTables`:

- Values, cells, rows, columns and the bulk-load description are datatypes.
- The table is a class, `DataTable`. Its two fields, `cols: seq<Column>` and
  `rows: seq<Row>`, are reassigned by the methods that change the table.
- The source's loops are `while` loops with invariants. Each method is proved
  against specification functions:
  - `RowOf` is the row `addRow` builds from a cell array.
  - `EmptyRow` is the row `addRow` builds from no argument.
  - `ColumnsOf` and `RowsOf` are what `loadData` appends.
  - `PadRows` is what repeated `addColumn` calls do to the existing rows.
- The exceptions the original throws are returned as data:
  - `Result` for accessors;
  - `Outcome` for `setValue`.
  - The errors are `IndexError`, `TypeMismatch` and `MissingCell`.

The invariant the table is meant to keep is `Aligned()`: every row has exactly
one cell per column. It is not a precondition of anything, because the source
does not keep it unconditionally. The contracts say which operations preserve
it:

- `addColumn`, `setValue` and `addRows(n)` always preserve it.
- `addRow`, `addRows(array)` and `loadData` preserve it exactly when every
  supplied cell array has one entry per column.

`GetValue` tells an aligned in-range read, which always succeeds, from a read
past the end of a short row (`MissingCell`).

`loadData` neither pads short rows nor truncates long ones, and neither does
the model: a loaded row has exactly as many cells as its description has
entries.

The `Scenario…` methods at the end of `datatable.dfy` replay the cases of
`src/datatable.test.ts` with the same inputs and the same expected results,
each citing the test lines it replays. `Data3x5` is that file's `data3x5`
table. The methods have no contracts of their own: their assertions follow
from the method contracts and the function definitions above.
`ScenarioShortRow` is the exception. No test covers it: it exercises the
read and write past the end of a short row.

## Model

| member | source | states |
|---|---|---|
| DataTables.Row.AddCell | src/datatable.ts:19-21 | Appending a cell gives a row one cell longer. The old cells are an unchanged prefix and the new cell is last. |
| DataTables.CellOf | src/datatable.ts:143-149 | The stored cell keeps the entry's value. A cell object is stored as it is. A bare value is wrapped in a cell with no display string and no properties. |
| DataTables.RowOf | src/datatable.ts:143-151 | The row built from a cell array has exactly one cell per entry, with no padding and no truncation. Cell k is the entry-k cell, in order. The proof needs the recursive call's contract. |
| DataTables.EmptyRow | src/datatable.ts:137-142 | With no cell array, the row has one cell per column, and every cell is the null cell. |
| DataTables.Conforms | src/datatable.ts:304-315 | The type check of `setValue` accepts exactly these values, one rule per column type: a string for `string`, a number for `number`, a boolean for `boolean`, a Date for `date`, and a four-element array for `timeofday`. It accepts nothing for `datetime`, because `typeof` never yields "datetime". It never accepts null. |
| DataTables.PadRows | src/datatable.ts:113-118 | The rows after n appended columns: the number of rows is unchanged. What each padded row holds is stated by PadRowsStep and AlignedPadded. |
| DataTables.PadRowsStep | src/datatable.ts:113-118 | Rows padded by n cells, each given one more null cell, are exactly the rows padded by n + 1 cells. |
| DataTables.AlignedConcat | src/datatable.ts:152 | Appending rows keeps every row one cell per column exactly when both parts have that property. |
| DataTables.AlignedPadded | src/datatable.ts:111-118 | Padding every row by n null cells keeps alignment against n more columns, in both directions. |
| DataTables.OrEmpty | src/datatable.ts:112 | The empty-string default of addColumn's optional id and label: a given string is kept, a missing one becomes "". |
| DataTables.ColumnOf | src/datatable.ts:112 | The column addColumn appends for one description: its declared type, and its id and label each defaulting to "". |
| DataTables.TypeOf | src/datatable.ts:313 | The host `typeof` on cell values: "string", "number" or "boolean" exactly for those values, and "object" for everything else, null included. |
| DataTables.AlignedRows | src/datatable.ts:113-118 | The one-cell-per-column invariant (`Aligned()` of the table): every row, taken as a member of the list, has exactly `width` cells, and an empty row list is aligned. |
| DataTables.ColumnsOf | src/datatable.ts:89-91 | `loadData` appends exactly one column per column description, in order, with id and label defaulting to "". |
| DataTables.RowsOf | src/datatable.ts:92-94 | `loadData` appends exactly one row per row description, in order. Each row is the one `addRow` builds from that description's cell array. |
| DataTables.LoadedAligned | src/datatable.ts:88-95 | After a load, rows are aligned with columns exactly when they were before and every loaded cell array has one entry per column (final column count). |
| DataTables.DataTable.constructor | src/datatable.ts:82-86 | A table created without data has no columns and no rows, and is aligned. |
| DataTables.DataTable.FromData | src/datatable.ts:82-95 | A table created from data has exactly the described columns and rows. It is aligned exactly when every row description has one entry per column. Every loaded value reads back through `GetValue` at its position. |
| DataTables.DataTable.ReadBackLoaded | src/datatable.ts:88-95 | The round trip of a load: for every loaded position that exists in both the row and the columns, `GetValue` returns the value supplied there. |
| DataTables.DataTable.LoadData | src/datatable.ts:88-95 | The column list grows by `ColumnsOf` of the descriptions. Old rows are padded by one null cell per new column, and `RowsOf` the row descriptions follows. Alignment is preserved exactly when every loaded cell array has one entry per column. |
| DataTables.DataTable.LoadColumns | src/datatable.ts:89-91 | The column loop of `loadData`: one `addColumn` per description, so the columns grow by `ColumnsOf` and existing rows are padded by that many null cells. |
| DataTables.DataTable.LoadRows | src/datatable.ts:92-94 | The row loop of `loadData`: one `addRow` per description, so the rows grow by `RowsOf` and the columns are unchanged. |
| DataTables.DataTable.AddColumn | src/datatable.ts:111-120 | Returns the index of the new column, which is the old column count. Appends the column with id and label defaulting to "", and appends one null cell to every existing row. Alignment is preserved in both directions. The new column's type, id and label read back through the getters. In an aligned table every row reads null in the new column. |
| DataTables.DataTable.AddRow | src/datatable.ts:134-153 | Leaves the columns unchanged and returns the index of the new last row. Appends `EmptyRow` when no cell array is given, and `RowOf(cellArray)` when one is. The table stays aligned exactly when it was and any given array has one entry per column. Each supplied or null value reads back through `GetValue`. |
| DataTables.DataTable.AddRowsCount | src/datatable.ts:165-177 | The numeric form of `addRows`. For n > 0 it appends n empty rows and returns the index of the last, which is old count + n - 1. For n <= 0 it appends nothing and returns 0. Earlier rows and the columns are unchanged, and alignment is preserved. |
| DataTables.DataTable.AddRowsFrom | src/datatable.ts:165-177 | The array form of `addRows`. It appends `RowOf` of each cell array, in order, and returns the index of the last new row, or 0 for an empty list. Earlier rows are unchanged. The table stays aligned exactly when it was and every array has one entry per column. |
| DataTables.DataTable.ValidColumnIndex | src/datatable.ts:185-191 | Passes exactly when 0 <= index < the number of columns. Otherwise it fails with a column index error that carries the index and the count. |
| DataTables.DataTable.ValidRowIndex | src/datatable.ts:199-205 | Passes exactly when 0 <= index < the number of rows. Otherwise it fails with a row index error that carries the index and the count. |
| DataTables.DataTable.GetNumberOfColumns | src/datatable.ts:210-212 | Returns the length of the column list. |
| DataTables.DataTable.GetNumberOfRows | src/datatable.ts:217-219 | Returns the length of the row list. |
| DataTables.DataTable.GetColumnId | src/datatable.ts:230-233 | Succeeds exactly for an index in range, with that column's id. Otherwise it fails with the column gate's error. |
| DataTables.DataTable.GetColumnLabel | src/datatable.ts:246-249 | Succeeds exactly for an index in range, with that column's label. Otherwise it fails with the column gate's error. |
| DataTables.DataTable.GetColumnType | src/datatable.ts:260-263 | Succeeds exactly for an index in range, with that column's declared type. Otherwise it fails with the column gate's error. |
| DataTables.DataTable.GetValue | src/datatable.ts:282-287 | A bad row index is reported first, even when the column index is also bad. Then a bad column index is reported. Success happens exactly when both indexes are in range and the row has that cell, and the stored value is returned verbatim. A short row gives `MissingCell`. In an aligned table every in-range read succeeds. |
| DataTables.DataTable.SetValue | src/datatable.ts:301-324 | Errors take precedence in this order: row gate, column gate, type mismatch (value, declared type, column), missing cell. It succeeds exactly when none applies. On failure the table is unchanged. On success only that cell's value changes, and its display string and properties are kept. The written value reads back, and alignment is preserved. |

## Left out

- Mutable objects and aliasing: in the original, rows and cells are objects shared with the caller. A cell object passed to `addRow` is stored by reference, and later changes by either side are visible to the other. The model stores rows and cells as values.
- CellOf: in the original, `addRow` tests `entry instanceof Object`, so a bare Date, array or other object is stored as the cell itself (it has no `v`) rather than wrapped. The model tells cell objects from bare values with the `Entry` datatype (`Raw` or `CellSpec`) and wraps every `Raw` value. So the round trip of FromData, ReadBackLoaded and AddRow holds in the original only for primitive bare values (strings, numbers, booleans, null) and for cell objects. A bare Date or array reads back as `undefined` there.
- The `Cell` constructor's coercions (`v || null`, `f || undefined`, `p || undefined`) are not modelled. A cell built with `new Cell(0)` or `new Cell("")` holds null in the original. The model's cells hold exactly the value given.
- A cell object without a `v` property reads back as `undefined` in the original. The model has no undefined value, so every cell has a `Value`.
- Numbers are opaque reals, with no floating-point behaviour, NaN or infinities. Dates are an opaque timestamp with no calendar, and `Obj` stands for any other object by identity.
- Indexes and counts are integers. The original also accepts non-integer and non-numeric arguments and compares them numerically. Those inputs are not modelled.
- `addRows` with an argument that is neither a number nor an array, and `addRow` with a non-array argument, are not modelled.
- Column types are the six tags of a datatype. A type string outside the six, which the original stores without checking, cannot be expressed.
- The constructor's `version` argument is unused by the original and is not modelled. Untyped bulk data is modelled by the `TableData`, `ColumnSpec` and `RowSpec` datatypes.
- Error message texts are not modelled. The errors carry the index, the count, the value, the declared type and the column instead.
- RowsOf: a row description without `c`, or an `undefined` element in the array given to `addRows`, takes the no-argument branch of `addRow` and appends an all-null row in the original. `RowSpec` and `AddRowsFrom` take cell arrays only, so these inputs cannot be expressed.
- RowOf: a hole in a sparse cell array (`['a', , 'c']`) is skipped by `forEach` in the original, so the later cells shift left and the row comes out short. A `seq<Entry>` has no holes, so this shift is not modelled; an explicit `null` entry is.
- MissingCell: reading or writing past the end of a short row is a `TypeError` crash in the original. The model returns it as a `MissingCell` error. For `setValue` the type check comes first, so a mismatching value reports `TypeMismatch` even on a short row, as in the original.
- SetValue: the doc comment of `setValue` says the formatted value and properties are cleared and that null is accepted for any column type. The code does neither, and the model follows the code.
- `getNumberofColumns` and `getNumberofRows` are spelled that way in the source. The model uses `GetNumberOfColumns` and `GetNumberOfRows`.
- The build configuration is not part of this model. The test file's cases are replayed by the scenario methods, but the tests' checks of error message texts and error classes are not.
