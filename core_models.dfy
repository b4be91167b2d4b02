/** The Go client's result model (goja-client/internal/core/models.go): a
    query result of column names and rows of dynamic cells, and its accessors
    that turn rows into maps and pick cells and columns. A Go slice built by
    `append` from nothing is nil until the first append; it is modelled as
    `None` (nil) or `Some(s)` with `s` non-empty. */
module CoreModels {
  import opened Dynamic

  datatype ErrorDetail = ErrorDetail(code: string, message: string, details: Value)

  /** `QueryOptions`: each field may be nil, written `None`. */
  datatype QueryOptions = QueryOptions(timeout: Option<int>, readOnly: Option<bool>, maxRows: Option<int>)

  /** `QueryRequest`: the SQL text, its parameters and its options, nil
      options being `None`. */
  datatype QueryRequest = QueryRequest(query: string, params: seq<Value>, options: Option<QueryOptions>)

  datatype QueryResult = QueryResult(columns: seq<string>, rows: seq<seq<Value>>, rowCount: int)

  /** `Result` and `Error` are nil-able references in Go: `None` is nil. Execution time is
      a float and is left out. */
  datatype QueryResponse = QueryResponse(
    success: bool,
    query: string,
    result: Option<QueryResult>,
    affectedRows: Option<int>,
    lastInsertId: Option<int>,
    error: Option<ErrorDetail>)

  /** A slice grown by `append` from a nil slice: nil when nothing was appended. */
  function AppendedSlice<T>(s: seq<T>): (r: Option<seq<T>>)
    ensures r.None? <==> s == []
    ensures r.Some? ==> r.value == s
  {
    if s == [] then None else Some(s)
  }

  /** Every row has a cell for every column (otherwise RowToMap indexes past
      the end of a row and panics). */
  predicate RowsCoverColumns(qr: QueryResult) {
    forall r :: 0 <= r < |qr.rows| ==> |qr.rows[r]| >= |qr.columns|
  }

  /** The map obtained by assigning `row[i]` to `columns[i]` for i = 0, 1, ...
      in order, so that a later column of the same name overwrites an
      earlier one. */
  function RowMap(columns: seq<string>, row: seq<Value>): (m: map<string, Value>)
    requires |row| >= |columns|
    ensures m.Keys == set c | c in columns
  {
    if columns == [] then map[]
    else RowMap(columns[..|columns| - 1], row)[columns[|columns| - 1] := row[|columns| - 1]]
  }

  /** The row map has exactly the column names as keys, and each name maps to
      the cell under the last column of that name. */
  lemma {:induction false} RowMapMeaning(columns: seq<string>, row: seq<Value>)
    requires |row| >= |columns|
    ensures forall i :: 0 <= i < |columns| && LastOfName(columns, i) ==>
      RowMap(columns, row)[columns[i]] == row[i]
  {
    if columns != [] {
      var n := |columns| - 1;
      var init := columns[..n];
      RowMapMeaning(init, row);
      var prev := RowMap(init, row);
      assert RowMap(columns, row) == prev[columns[n] := row[n]];
      forall i | 0 <= i < |columns| && LastOfName(columns, i)
        ensures RowMap(columns, row)[columns[i]] == row[i]
      {
        if i < n {
          assert columns[n] != columns[i] && init[i] == columns[i];
          assert LastOfName(init, i) by {
            forall j | i < j < |init| ensures init[j] != init[i] {
              assert init[j] == columns[j];
            }
          }
        }
      }
    }
  }

  /** With distinct column names every column maps to its own cell. */
  lemma RowMapDistinct(columns: seq<string>, row: seq<Value>, i: int)
    requires |row| >= |columns|
    requires forall a, b :: 0 <= a < b < |columns| ==> columns[a] != columns[b]
    requires 0 <= i < |columns|
    ensures RowMap(columns, row)[columns[i]] == row[i]
  {
    RowMapMeaning(columns, row);
    assert LastOfName(columns, i);
  }

  /** `QueryResult.RowToMap`: nil for a row index out of range, otherwise the
      map from column names to that row's cells. */
  method RowToMap(qr: QueryResult, rowIndex: int) returns (m: Option<map<string, Value>>)
    requires 0 <= rowIndex < |qr.rows| ==> |qr.rows[rowIndex]| >= |qr.columns|
    ensures m.None? <==> rowIndex < 0 || rowIndex >= |qr.rows|
    ensures m.Some? ==> m.value == RowMap(qr.columns, qr.rows[rowIndex])
  {
    if rowIndex < 0 || rowIndex >= |qr.rows| {
      return None;
    }
    var row := qr.rows[rowIndex];
    var result: map<string, Value> := map[];
    var colIndex := 0;
    while colIndex < |qr.columns|
      invariant 0 <= colIndex <= |qr.columns|
      invariant result == RowMap(qr.columns[..colIndex], row)
    {
      assert qr.columns[..colIndex + 1][..colIndex] == qr.columns[..colIndex];
      result := result[qr.columns[colIndex] := row[colIndex]];
      colIndex := colIndex + 1;
    }
    assert qr.columns[..colIndex] == qr.columns;
    return Some(result);
  }

  /** The row maps of all rows, in row order. */
  function AllRowMaps(qr: QueryResult): (r: seq<map<string, Value>>)
    requires RowsCoverColumns(qr)
    ensures |r| == |qr.rows|
    ensures forall i :: 0 <= i < |r| ==> r[i] == RowMap(qr.columns, qr.rows[i])
  {
    seq(|qr.rows|, i requires 0 <= i < |qr.rows| => RowMap(qr.columns, qr.rows[i]))
  }

  /** `QueryResult.AllToMaps`: one map per row, in row order (nil when there
      are no rows). */
  method AllToMaps(qr: QueryResult) returns (maps: Option<seq<map<string, Value>>>)
    requires RowsCoverColumns(qr)
    ensures maps == AppendedSlice(AllRowMaps(qr))
  {
    var results: seq<map<string, Value>> := [];
    var i := 0;
    while i < |qr.rows|
      invariant 0 <= i <= |qr.rows|
      invariant results == AllRowMaps(qr)[..i]
    {
      var m := RowToMap(qr, i);
      results := results + [m.value];
      i := i + 1;
    }
    assert AllRowMaps(qr)[..i] == AllRowMaps(qr);
    return AppendedSlice(results);
  }

  /** `QueryResult.GetValue`: nil unless both indices are in range, where the
      column index is checked against that row's own length. */
  function GetValue(qr: QueryResult, rowIndex: int, colIndex: int): (v: Value)
    ensures (0 <= rowIndex < |qr.rows| && 0 <= colIndex < |qr.rows[rowIndex]|) ==>
      v == qr.rows[rowIndex][colIndex]
    ensures !(0 <= rowIndex < |qr.rows| && 0 <= colIndex < |qr.rows[rowIndex]|) ==> v == Null
  {
    if rowIndex < 0 || rowIndex >= |qr.rows| then Null
    else if colIndex < 0 || colIndex >= |qr.rows[rowIndex]| then Null
    else qr.rows[rowIndex][colIndex]
  }

  /** For a row that covers the columns and distinct column names, the cell
      GetValue returns is the one the row map holds under that column's name. */
  lemma GetValueAgreesWithRowMap(qr: QueryResult, rowIndex: int, colIndex: int)
    requires 0 <= rowIndex < |qr.rows| && |qr.rows[rowIndex]| >= |qr.columns|
    requires forall a, b :: 0 <= a < b < |qr.columns| ==> qr.columns[a] != qr.columns[b]
    requires 0 <= colIndex < |qr.columns|
    ensures GetValue(qr, rowIndex, colIndex) == RowMap(qr.columns, qr.rows[rowIndex])[qr.columns[colIndex]]
  {
    RowMapDistinct(qr.columns, qr.rows[rowIndex], colIndex);
  }

  /** The cells at `colIndex` of the rows long enough to have one, in row order. */
  function ColumnCells(rows: seq<seq<Value>>, colIndex: nat): seq<Value> {
    if rows == [] then []
    else (if colIndex < |rows[0]| then [rows[0][colIndex]] else []) + ColumnCells(rows[1..], colIndex)
  }

  /** A column never has more cells than there are rows, and when every row is
      long enough it has exactly one cell per row, the one GetValue reads. */
  lemma {:induction false} ColumnCellsMeaning(qr: QueryResult, colIndex: nat)
    ensures |ColumnCells(qr.rows, colIndex)| <= |qr.rows|
    ensures (forall r :: 0 <= r < |qr.rows| ==> colIndex < |qr.rows[r]|) ==>
      |ColumnCells(qr.rows, colIndex)| == |qr.rows| &&
      forall r :: 0 <= r < |qr.rows| ==> ColumnCells(qr.rows, colIndex)[r] == GetValue(qr, r, colIndex)
    decreases |qr.rows|
  {
    if qr.rows != [] {
      var rest := qr.(rows := qr.rows[1..]);
      ColumnCellsMeaning(rest, colIndex);
      if forall r :: 0 <= r < |qr.rows| ==> colIndex < |qr.rows[r]| {
        forall r | 0 <= r < |qr.rows|
          ensures ColumnCells(qr.rows, colIndex)[r] == GetValue(qr, r, colIndex)
        {
          if r > 0 {
            assert rest.rows[r - 1] == qr.rows[r];
            assert ColumnCells(qr.rows, colIndex)[r] == ColumnCells(rest.rows, colIndex)[r - 1];
          }
        }
      }
    }
  }

  /** `QueryResult.GetColumn`: the cells at `colIndex` of the rows that have
      one, in row order (nil when there are none). A negative index passes
      the source's guard and panics on the first row, so it is excluded
      unless there are no rows, when the loop never runs and nil comes back. */
  method GetColumn(qr: QueryResult, colIndex: int) returns (column: Option<seq<Value>>)
    requires colIndex >= 0 || qr.rows == []
    ensures qr.rows == [] ==> column.None?
    ensures colIndex >= 0 ==> column == AppendedSlice(ColumnCells(qr.rows, colIndex))
  {
    ghost var index: nat := if colIndex >= 0 then colIndex else 0;
    var cells: seq<Value> := [];
    var i := 0;
    while i < |qr.rows|
      invariant 0 <= i <= |qr.rows|
      invariant cells + ColumnCells(qr.rows[i..], index) == ColumnCells(qr.rows, index)
    {
      var row := qr.rows[i];
      ColumnCellsStep(qr.rows, i, index);
      ghost var later := ColumnCells(qr.rows[i + 1..], index);
      if colIndex < |row| {
        assert (cells + [row[colIndex]]) + later == cells + ([row[colIndex]] + later);
        cells := cells + [row[colIndex]];
      } else {
        assert ColumnCells(qr.rows[i..], index) == later;
      }
      i := i + 1;
    }
    assert ColumnCells(qr.rows[i..], index) == [];
    assert cells == ColumnCells(qr.rows, index);
    return AppendedSlice(cells);
  }

  /** The column of the rows from `i` on: row i's cell, if it has one,
      then the column of the rows after it. */
  lemma ColumnCellsStep(rows: seq<seq<Value>>, i: nat, colIndex: nat)
    requires i < |rows|
    ensures ColumnCells(rows[i..], colIndex) ==
      (if colIndex < |rows[i]| then [rows[i][colIndex]] else []) + ColumnCells(rows[i + 1..], colIndex)
  {
    assert rows[i..][0] == rows[i] && rows[i..][1..] == rows[i + 1..];
  }

  /** Index of the first column called `name`. */
  function FirstColumnIndex(columns: seq<string>, name: string): (r: Option<nat>)
    ensures r.None? <==> name !in columns
    ensures r.Some? ==> r.value < |columns| && columns[r.value] == name && name !in columns[..r.value]
  {
    if columns == [] then None
    else if columns[0] == name then Some(0)
    else match FirstColumnIndex(columns[1..], name)
      case None => None
      case Some(i) => Some(i + 1)
  }

  /** `QueryResult.GetColumnByName`: the column of the first column whose
      name matches, nil when no name matches. */
  method GetColumnByName(qr: QueryResult, columnName: string) returns (column: Option<seq<Value>>)
    ensures columnName !in qr.columns ==> column.None?
    ensures columnName in qr.columns ==>
      column == AppendedSlice(ColumnCells(qr.rows, FirstColumnIndex(qr.columns, columnName).value))
  {
    var i := 0;
    while i < |qr.columns|
      invariant 0 <= i <= |qr.columns|
      invariant columnName !in qr.columns[..i]
    {
      if qr.columns[i] == columnName {
        assert FirstColumnIndex(qr.columns, columnName) == Some(i) by {
          FirstIndexUnique(qr.columns, columnName, i);
        }
        column := GetColumn(qr, i);
        return;
      }
      assert qr.columns[..i + 1] == qr.columns[..i] + [qr.columns[i]];
      i := i + 1;
    }
    assert qr.columns[..i] == qr.columns;
    return None;
  }

  /** The first index of a name is the one index holding it with no earlier
      occurrence. */
  lemma {:induction false} FirstIndexUnique(columns: seq<string>, name: string, i: nat)
    requires i < |columns| && columns[i] == name && name !in columns[..i]
    ensures FirstColumnIndex(columns, name) == Some(i)
  {
    if i > 0 {
      assert columns[0] in columns[..i];
      assert columns[1..][..i - 1] == columns[..i][1..];
      FirstIndexUnique(columns[1..], name, i - 1);
    }
  }
}
