/**
 * A spreadsheet range as the adapters see it: a sequence of rows of cell values.
 * A blank cell is `Undefined`; a row may be shorter than the range, and a cell past
 * its end reads as blank.
 */
module Table {
  import opened Js

  type Row = seq<Value>

  /** `row[i]`: the cell in column `i` (0 is column A), blank past the end of the row. */
  function Cell(row: Row, i: nat): Value
  {
    if i < |row| then row[i] else Undefined
  }

  /** A value the JSON request body carries as `null` (`undefined`, NaN): the service skips it. */
  predicate Skipped(v: Value)
  {
    v.Undefined? || v.NaN?
  }

  function Max(a: nat, b: nat): nat
  {
    if a < b then b else a
  }

  /**
   * The row after the service writes `values` from column A on: each written cell takes
   * its value, a skipped value leaves the cell as it was, and the cells after the
   * written ones keep theirs. Writing to `[]` appends a new row.
   */
  function WriteCells(row: Row, values: Row): (r: Row)
    ensures |r| == Max(|row|, |values|)
    ensures forall i :: 0 <= i < |values| && !Skipped(values[i]) ==> Cell(r, i) == values[i]
    ensures forall i :: 0 <= i < |values| && Skipped(values[i]) ==> Cell(r, i) == Cell(row, i)
    ensures forall i :: |values| <= i ==> Cell(r, i) == Cell(row, i)
  {
    seq(Max(|row|, |values|), i requires 0 <= i < Max(|row|, |values|) =>
      if i < |values| && !Skipped(values[i]) then values[i] else Cell(row, i))
  }

  /** The row after clearing its first `n` cells: they read as blank, the rest is kept. */
  function ClearCells(row: Row, n: nat): (r: Row)
    ensures |r| == |row|
    ensures forall i :: 0 <= i < n ==> Cell(r, i) == Undefined
    ensures forall i :: n <= i ==> Cell(r, i) == Cell(row, i)
  {
    seq(|row|, i requires 0 <= i < |row| => if i < n then Undefined else row[i])
  }

  /** The row as the service returns it: trailing blank cells are not sent. */
  function Trimmed(row: Row): (r: Row)
    ensures r <= row
    ensures r == [] || r[|r| - 1] != Undefined
    ensures forall i :: |r| <= i < |row| ==> row[i] == Undefined
  {
    if row == [] || row[|row| - 1] != Undefined then row else Trimmed(row[..|row| - 1])
  }

  /** No cell in the first `n` columns holds a value: the row reads as empty in a range `n` columns wide. */
  predicate BlankRow(row: Row, n: nat)
  {
    forall i :: 0 <= i < n ==> Cell(row, i) == Undefined
  }

  /**
   * The rows of a range `n` columns wide as the service holds them: the trailing rows that
   * are blank in the range are not returned by a read, and the next append fills the first
   * of them, so they are dropped.
   */
  function TrimmedRows(rows: seq<Row>, n: nat): (r: seq<Row>)
    ensures r <= rows
    ensures r == [] || !BlankRow(r[|r| - 1], n)
    ensures forall j :: |r| <= j < |rows| ==> BlankRow(rows[j], n)
  {
    if rows == [] || !BlankRow(rows[|rows| - 1], n) then rows else TrimmedRows(rows[..|rows| - 1], n)
  }

  /**
   * `rows.findIndex((row, index) => index >= from && row[0] === key)`: the first row at or
   * after `from` whose column-A cell strictly equals `key`, or -1.
   */
  function FindRow(rows: seq<Row>, key: Value, from: nat): (k: int)
    ensures k == -1 || from <= k < |rows|
    ensures k != -1 ==> StrictEquals(Cell(rows[k], 0), key)
    ensures k != -1 ==> forall j :: from <= j < k ==> !StrictEquals(Cell(rows[j], 0), key)
    ensures k == -1 <==> forall j :: from <= j < |rows| ==> !StrictEquals(Cell(rows[j], 0), key)
    decreases |rows| - from
  {
    if from >= |rows| then -1
    else if StrictEquals(Cell(rows[from], 0), key) then from
    else FindRow(rows, key, from + 1)
  }

  /** A NaN key is never found: `===` is false for NaN. */
  lemma FindNaNFails(rows: seq<Row>, from: nat)
    ensures FindRow(rows, NaN, from) == -1
  {
  }
}
