/**
 * The part of a pandas DataFrame the core relies on: named columns in order,
 * rows of cells, dropping a column, taking one column, and indexing rows.
 * Reading a CSV file into a frame is I/O and is not modelled.
 */
module Frames {
  import opened Wrappers

  /** A cell read from the CSV: a number or a piece of text. */
  datatype Cell = Num(n: real) | Text(s: string)

  type Row = seq<Cell>

  datatype Frame = Frame(columns: seq<string>, rows: seq<Row>) {
    /** Column names are unique and every row has one cell per column. */
    ghost predicate WellShaped() {
      && (forall i, j :: 0 <= i < j < |columns| ==> columns[i] != columns[j])
      && (forall r :: 0 <= r < |rows| ==> |rows[r]| == |columns|)
    }
  }

  /** Position of `name` in `names`, if present. */
  function IndexOf(names: seq<string>, name: string): (r: Option<nat>)
    ensures r.Some? ==> r.value < |names| && names[r.value] == name
    ensures r.Some? ==> forall i :: 0 <= i < r.value ==> names[i] != name
    ensures r.None? <==> name !in names
  {
    if |names| == 0 then None
    else if names[0] == name then Some(0)
    else match IndexOf(names[1..], name)
      case None => None
      case Some(i) => Some(i + 1)
  }

  /** `xs` without its element at position `i`. */
  function RemoveAt<T>(xs: seq<T>, i: nat): (r: seq<T>)
    requires i < |xs|
    ensures |r| == |xs| - 1
    ensures forall k :: 0 <= k < i ==> r[k] == xs[k]
    ensures forall k :: i <= k < |r| ==> r[k] == xs[k + 1]
  {
    xs[..i] + xs[i + 1..]
  }

  /** `data.drop(column, axis=1)`: the frame without the column at `i`. */
  function DropColumn(f: Frame, i: nat): (r: Frame)
    requires f.WellShaped() && i < |f.columns|
    ensures r.columns == RemoveAt(f.columns, i)
    ensures |r.rows| == |f.rows|
    ensures forall k :: 0 <= k < |r.rows| ==> r.rows[k] == RemoveAt(f.rows[k], i)
  {
    Frame(RemoveAt(f.columns, i), seq(|f.rows|, k requires 0 <= k < |f.rows| => RemoveAt(f.rows[k], i)))
  }

  /** `data[column]`: the cells of the column at `i`, row by row. */
  function Column(f: Frame, i: nat): (r: seq<Cell>)
    requires f.WellShaped() && i < |f.columns|
    ensures |r| == |f.rows|
    ensures forall k :: 0 <= k < |r| ==> r[k] == f.rows[k][i]
  {
    seq(|f.rows|, k requires 0 <= k < |f.rows| => f.rows[k][i])
  }

  /** Every index in `idx` is a valid position of a sequence of length `n`. */
  predicate IndicesBelow(idx: seq<nat>, n: nat) {
    forall k :: 0 <= k < |idx| ==> idx[k] < n
  }

  /** Positional indexing `xs[idx]`, as the split applies it to each array. */
  function Select<T>(xs: seq<T>, idx: seq<nat>): (r: seq<T>)
    requires IndicesBelow(idx, |xs|)
    ensures |r| == |idx|
    ensures forall k :: 0 <= k < |idx| ==> r[k] == xs[idx[k]]
  {
    seq(|idx|, k requires 0 <= k < |idx| => xs[idx[k]])
  }

  /** The frame's cells as a numeric matrix; `None` if any cell is text. */
  function ToMatrix(rows: seq<Row>): (r: Option<seq<seq<real>>>)
    ensures r.Some? <==> forall i, j :: 0 <= i < |rows| && 0 <= j < |rows[i]| ==> rows[i][j].Num?
    ensures r.Some? ==> |r.value| == |rows|
    ensures r.Some? ==> forall i :: 0 <= i < |rows| ==> |r.value[i]| == |rows[i]|
    ensures r.Some? ==> forall i, j :: 0 <= i < |rows| && 0 <= j < |rows[i]| ==> r.value[i][j] == rows[i][j].n
  {
    if |rows| == 0 then Some([])
    else match (RowToVector(rows[0]), ToMatrix(rows[1..]))
      case (Some(v), Some(m)) => Some([v] + m)
      case _ => None
  }

  function RowToVector(row: Row): (r: Option<seq<real>>)
    ensures r.Some? <==> forall j :: 0 <= j < |row| ==> row[j].Num?
    ensures r.Some? ==> |r.value| == |row| && forall j :: 0 <= j < |row| ==> r.value[j] == row[j].n
  {
    if |row| == 0 then Some([])
    else if !row[0].Num? then None
    else match RowToVector(row[1..])
      case None => None
      case Some(v) => Some([row[0].n] + v)
  }
}
