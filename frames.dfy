/**
 * A pandas DataFrame as the pipelines use it: named columns of cells, kept
 * column by column, with the row labels of its index.  The pure value is a
 * Sheet; the Frame class holds one and changes it in place.
 */
module Frames {
  import opened Cells

  /** Columns, the cells of each column, and the row labels. */
  datatype Sheet = Sheet(columns: seq<string>, data: seq<seq<Cell>>, index: seq<nat>)

  /** Every column has one cell per row label. */
  predicate WellFormed(s: Sheet)
  {
    |s.data| == |s.columns| && forall j | 0 <= j < |s.data| :: |s.data[j]| == |s.index|
  }

  /** The position of the first column with this name. */
  function ColumnIndex(columns: seq<string>, name: string): (j: nat)
    requires name in columns
    ensures j < |columns| && columns[j] == name && name !in columns[..j]
  {
    if columns[0] == name then 0
    else
      assert columns == [columns[0]] + columns[1..];
      1 + ColumnIndex(columns[1..], name)
  }

  /** df[name] for a present column. */
  function Column(s: Sheet, name: string): (col: seq<Cell>)
    requires WellFormed(s) && name in s.columns
    ensures |col| == |s.index|
  {
    s.data[ColumnIndex(s.columns, name)]
  }

  /**
   * df[name] = col: a present column is replaced, an absent one appended at
   * the right; nothing else changes.
   */
  function WithColumn(s: Sheet, name: string, col: seq<Cell>): (r: Sheet)
    requires WellFormed(s) && |col| == |s.index|
    ensures WellFormed(r) && r.index == s.index
    ensures name in r.columns && Column(r, name) == col
    ensures name in s.columns ==> r.columns == s.columns
    ensures name !in s.columns ==> r.columns == s.columns + [name] && r.data == s.data + [col]
    ensures forall c | c in s.columns && c != name :: Column(r, c) == Column(s, c)
  {
    if name in s.columns then
      var j := ColumnIndex(s.columns, name);
      var r := Sheet(s.columns, s.data[j := col], s.index);
      assert forall c | c in s.columns && c != name :: ColumnIndex(r.columns, c) != j;
      r
    else
      var r := Sheet(s.columns + [name], s.data + [col], s.index);
      SameIndexAfterAppend(s.columns, name);
      r
  }

  lemma SameIndexAfterAppend(columns: seq<string>, name: string)
    ensures forall c | c in columns :: ColumnIndex(columns + [name], c) == ColumnIndex(columns, c)
    ensures name !in columns ==> ColumnIndex(columns + [name], name) == |columns|
  {
    forall c | c in columns
      ensures ColumnIndex(columns + [name], c) == ColumnIndex(columns, c)
    {
      var j := ColumnIndex(columns, c);
      assert (columns + [name])[..j] == columns[..j];
      IndexOfFirst(columns + [name], c, j);
    }
    if name !in columns {
      assert (columns + [name])[..|columns|] == columns;
      IndexOfFirst(columns + [name], name, |columns|);
    }
  }

  /** A position holding the name with no earlier occurrence is the name's index. */
  lemma {:induction false} IndexOfFirst(columns: seq<string>, name: string, j: nat)
    requires j < |columns| && columns[j] == name && name !in columns[..j]
    ensures ColumnIndex(columns, name) == j
  {
    if j > 0 {
      assert columns[0] == columns[..j][0];
      assert columns[1..][..j - 1] == columns[..j][1..];
      IndexOfFirst(columns[1..], name, j - 1);
    }
  }

  /** The cells of one column, each passed through f (Series.apply). */
  function MapCells(col: seq<Cell>, f: Cell -> Cell): (r: seq<Cell>)
    ensures |r| == |col| && forall i | 0 <= i < |col| :: r[i] == f(col[i])
  {
    seq(|col|, i requires 0 <= i < |col| => f(col[i]))
  }

  /** A column name mapped through f, others unchanged (DataFrame.rename). */
  function RenameAll(columns: seq<string>, f: string -> string): (r: seq<string>)
    ensures |r| == |columns| && forall j | 0 <= j < |columns| :: r[j] == f(columns[j])
  {
    seq(|columns|, j requires 0 <= j < |columns| => f(columns[j]))
  }

  /**
   * The row at position i as a dict (to_dict(orient='records') and
   * row.get in apply(axis=1)); when two columns share a name the later one wins.
   */
  function RowRecord(columns: seq<string>, data: seq<seq<Cell>>, i: nat): (r: Record)
    requires |data| == |columns| && forall j | 0 <= j < |data| :: i < |data[j]|
    ensures r.Keys == set c | c in columns
    decreases |columns|
  {
    if columns == [] then map[]
    else
      var n := |columns| - 1;
      RowRecord(columns[..n], data[..n], i)[columns[n] := data[n][i]]
  }

  /** The record of a row gives the cell of the last column of each name. */
  lemma {:induction false} RowRecordCell(columns: seq<string>, data: seq<seq<Cell>>, i: nat, j: nat)
    requires |data| == |columns| && forall k | 0 <= k < |data| :: i < |data[k]|
    requires j < |columns| && columns[j] !in columns[j + 1..]
    ensures RowRecord(columns, data, i)[columns[j]] == data[j][i]
    decreases |columns|
  {
    var n := |columns| - 1;
    if j < n {
      assert columns[j + 1..] == columns[..n][j + 1..] + [columns[n]];
      RowRecordCell(columns[..n], data[..n], i, j);
    }
  }

  /** Row i of a sheet as a record. */
  function Row(s: Sheet, i: nat): (r: Record)
    requires WellFormed(s) && i < |s.index|
    ensures r.Keys == set c | c in s.columns
  {
    RowRecord(s.columns, s.data, i)
  }

  /** All rows as records, in order (to_dict(orient='records')). */
  function Records(s: Sheet): (rs: seq<Record>)
    requires WellFormed(s)
    ensures |rs| == |s.index| && forall i | 0 <= i < |rs| :: rs[i] == Row(s, i)
  {
    seq(|s.index|, i requires 0 <= i < |s.index| => Row(s, i))
  }

  /** The sheet restricted to the given rows, in the given order, labels kept. */
  function TakeRows(s: Sheet, rows: seq<nat>): (r: Sheet)
    requires WellFormed(s) && forall k | 0 <= k < |rows| :: rows[k] < |s.index|
    ensures WellFormed(r) && r.columns == s.columns && |r.index| == |rows|
    ensures forall k | 0 <= k < |rows| :: r.index[k] == s.index[rows[k]]
    ensures forall j, k | 0 <= j < |s.data| && 0 <= k < |rows| :: r.data[j][k] == s.data[j][rows[k]]
  {
    var data := seq(|s.data|, j requires 0 <= j < |s.data| =>
      seq(|rows|, k requires 0 <= k < |rows| => s.data[j][rows[k]]));
    Sheet(s.columns, data, seq(|rows|, k requires 0 <= k < |rows| => s.index[rows[k]]))
  }

  /** The sheet restricted to the named columns that it has, in the order given (df[cols]). */
  function SelectColumns(s: Sheet, names: seq<string>): (r: Sheet)
    requires WellFormed(s) && forall k | 0 <= k < |names| :: names[k] in s.columns
    ensures WellFormed(r) && r.columns == names && r.index == s.index
    ensures forall k | 0 <= k < |names| :: r.data[k] == Column(s, names[k])
  {
    Sheet(names, seq(|names|, k requires 0 <= k < |names| => Column(s, names[k])), s.index)
  }

  /**
   * A DataFrame held by the program and changed in place.
   */
  class Frame {
    var columns: seq<string>
    var data: seq<seq<Cell>>
    var index: seq<nat>

    /** The frame's current contents. */
    function Value(): Sheet
      reads this
    {
      Sheet(columns, data, index)
    }

    ghost predicate Valid()
      reads this
    {
      WellFormed(Value())
    }

    constructor (s: Sheet)
      requires WellFormed(s)
      ensures Valid() && Value() == s
    {
      columns, data, index := s.columns, s.data, s.index;
    }

    /** df.columns = names */
    method SetColumnNames(names: seq<string>)
      requires Valid() && |names| == |columns|
      modifies this
      ensures Valid() && Value() == Sheet(names, old(data), old(index))
    {
      columns := names;
    }

    /** Sets a column in place: replaced when present, appended when absent. */
    method SetColumn(name: string, col: seq<Cell>)
      requires Valid() && |col| == |index|
      modifies this
      ensures Valid() && Value() == WithColumn(old(Value()), name, col)
    {
      var r := WithColumn(Value(), name, col);
      columns, data := r.columns, r.data;
    }

    /** df = sheet (a new frame bound to the same name). */
    method Assign(s: Sheet)
      requires WellFormed(s)
      modifies this
      ensures Valid() && Value() == s
    {
      columns, data, index := s.columns, s.data, s.index;
    }
  }
}
