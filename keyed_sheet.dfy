/**
 * The spreadsheet adapter keyed by the header row. Reading decodes every row after
 * row 1 into an object whose property names are the header cells; saving lays the
 * item out in header order and appends it; updating and deleting look for the id
 * only below the header and throw not-found when it is missing.
 */
module KeyedSheet {
  import opened Js
  import opened JsText
  import opened Table

  /** The columns read, updated and searched: `Inventory!A:J`. */
  const Width: nat := 10

  predicate IsDecimalHeader(h: Value)
  {
    h == Str("price") || h == Str("costPrice")
  }

  predicate IsIntegerHeader(h: Value)
  {
    h == Str("quantity") || h == Str("lowStockThreshold")
  }

  /**
   * The property decoded from the cell under `header`: `parseFloat(cell || '0')` for
   * the prices, `parseInt(cell || '0', 10)` for the counts, `cell || ''` otherwise.
   */
  function DecodeField(header: Value, cell: Value): Value
  {
    if IsDecimalHeader(header) then ParseFloatValue(Or(cell, Str("0")))
    else if IsIntegerHeader(header) then ParseIntValue(Or(cell, Str("0")))
    else Or(cell, Str(""))
  }

  /** The object after the first `n` steps of `headers.forEach`: a repeated header keeps its last column. */
  function RecordOf(headers: Row, row: Row, n: nat): Obj
    requires n <= |headers|
  {
    if n == 0 then map[]
    else RecordOf(headers, row, n - 1)[headers[n - 1] := DecodeField(headers[n - 1], Cell(row, n - 1))]
  }

  /** The object a data row decodes to under the given header row. */
  function Record(headers: Row, row: Row): Obj
  {
    RecordOf(headers, row, |headers|)
  }

  /** `row.slice(0, n)`: the first `n` cells, as a range `A:…` returns them. */
  function Columns(row: Row, n: nat): (r: Row)
    ensures |r| <= n && r <= row
    ensures forall i: nat :: i < n ==> Cell(r, i) == Cell(row, i)
  {
    if |row| <= n then row else row[..n]
  }

  /** `rows[0]` of a read of `A:J`: the header cells up to the last non-blank one. */
  function Headers(rows: seq<Row>): (h: Row)
    ensures |h| <= Width
  {
    if rows == [] then [] else Trimmed(Columns(rows[0], Width))
  }

  /** `headerResponse.data.values[0]`: the whole of row 1 up to its last non-blank cell. */
  function SaveHeaders(rows: seq<Row>): Row
  {
    if rows == [] then [] else Trimmed(rows[0])
  }

  /** `getAllItemsFromSheet`: nothing for a sheet of at most one row, else every row after it decoded. */
  function ItemsOf(rows: seq<Row>): (items: seq<Obj>)
    ensures |rows| <= 1 ==> items == []
    ensures |rows| > 1 ==> |items| == |rows| - 1
    ensures forall j :: 0 <= j < |items| ==> items[j] == Record(Headers(rows), rows[j + 1])
  {
    if |rows| <= 1 then []
    else seq(|rows| - 1, j requires 0 <= j < |rows| - 1 => Record(Headers(rows), rows[j + 1]))
  }

  /** `{id: item.id || uuid, ...item}`: the spread keeps an own `id` property, whatever its value. */
  function WithId(item: Obj, uuid: string): (r: Obj)
    ensures Str("id") in item ==> r == item
    ensures Str("id") !in item ==> r == item[Str("id") := Str(uuid)]
  {
    map[Str("id") := Or(Prop(item, "id"), Str(uuid))] + item
  }

  /** `headers.map(header => itemWithId[header] || '')`. */
  function SavedRow(headers: Row, item: Obj): (r: Row)
    ensures |r| == |headers|
    ensures forall i :: 0 <= i < |r| ==> r[i] == Or(Lookup(item, headers[i]), Str(""))
  {
    seq(|headers|, i requires 0 <= i < |headers| => Or(Lookup(item, headers[i]), Str("")))
  }

  /** `headers.map(header => item[header] !== undefined ? item[header] : '')`. */
  function UpdatedRow(headers: Row, item: Obj): (r: Row)
    ensures |r| == |headers|
    ensures forall i :: 0 <= i < |r| ==> r[i] == if Lookup(item, headers[i]) != Undefined then Lookup(item, headers[i]) else Str("")
  {
    seq(|headers|, i requires 0 <= i < |headers| =>
      if Lookup(item, headers[i]) != Undefined then Lookup(item, headers[i]) else Str(""))
  }

  /** `String.fromCharCode(65 + n - 1)`, when it is a column letter: the last column of `n` headers. */
  function LastColumn(n: nat): (c: Option<char>)
    ensures c.Some? <==> 1 <= n <= 26
    ensures c.Some? ==> 'A' <= c.value <= 'Z' && c.value as int - 'A' as int + 1 == n
  {
    if 1 <= n <= 26 then Some((65 + n - 1) as char) else None
  }

  /** What `deleteItemFromSheet` returns: `{id, deleted: true}`. */
  function Deleted(id: Value): Obj
  {
    map[Str("id") := id, Str("deleted") := Bool(true)]
  }

  /** The Inventory sheet. */
  class Sheet {
    var rows: seq<Row>

    constructor(initial: seq<Row>)
      ensures rows == initial
    {
      rows := initial;
    }

    /** `getAllItemsFromSheet`: the rows after the header, each decoded by the header loop. */
    method GetAllItems() returns (items: seq<Obj>)
      ensures items == ItemsOf(rows)
    {
      items := [];
      if |rows| <= 1 {
        return;
      }
      var headers := Headers(rows);
      var j := 1;
      while j < |rows|
        invariant 1 <= j <= |rows|
        invariant |items| == j - 1
        invariant forall m :: 0 <= m < j - 1 ==> items[m] == Record(headers, rows[m + 1])
      {
        var item := DecodeRow(headers, rows[j]);
        items := items + [item];
        j := j + 1;
      }
    }

    /**
     * `saveItemToSheet`: reads the header row, lays the item (with its id) out in header
     * order and appends it. A blank row 1 leaves `values` undefined and the read of
     * `values[0]` throws, so the default header list is never used.
     */
    method SaveItem(item: Obj, uuid: string) returns (r: Result<Obj>)
      modifies this`rows
      ensures SaveHeaders(old(rows)) == [] ==> r.Err? && r.error.TypeError? && rows == old(rows)
      ensures SaveHeaders(old(rows)) != [] ==>
        && r == Ok(WithId(item, uuid))
        && rows == old(rows) + [WriteCells([], SavedRow(SaveHeaders(old(rows)), WithId(item, uuid)))]
    {
      var headers := SaveHeaders(rows);
      if headers == [] {
        return Err(TypeError("Cannot read properties of undefined (reading '0')"));
      }
      var itemWithId := WithId(item, uuid);
      rows := rows + [WriteCells([], SavedRow(headers, itemWithId))];
      r := Ok(itemWithId);
    }

    /**
     * `updateItemInSheet`: overwrites, cell by cell from column A, the first row below the
     * header whose id cell is `item.id`; an unknown id throws and writes nothing.
     */
    method UpdateItem(item: Obj) returns (r: Result<Obj>)
      modifies this`rows
      ensures var k := FindRow(old(rows), Prop(item, "id"), 1);
        && (k == -1 ==> r == Err(NotFound(Prop(item, "id"))) && rows == old(rows))
        && (k != -1 ==>
             r == Ok(item) && rows == old(rows)[k := WriteCells(old(rows)[k], UpdatedRow(Headers(old(rows)), item))])
    {
      var k := FindRow(rows, Prop(item, "id"), 1);
      if k == -1 {
        return Err(NotFound(Prop(item, "id")));
      }
      rows := rows[k := WriteCells(rows[k], UpdatedRow(Headers(rows), item))];
      r := Ok(item);
    }

    /**
     * `deleteItemFromSheet` as written: once the id is found, building the range reads
     * `headers`, which the function never declares, so it throws and clears nothing.
     */
    method DeleteItemAsWritten(id: Value) returns (r: Result<Obj>)
      modifies this`rows
      ensures rows == old(rows)
      ensures FindRow(old(rows), id, 1) == -1 ==> r == Err(NotFound(id))
      ensures FindRow(old(rows), id, 1) != -1 ==> r == Err(ReferenceError("headers"))
    {
      var k := FindRow(rows, id, 1);
      if k == -1 {
        return Err(NotFound(id));
      }
      r := Err(ReferenceError("headers"));
    }

    /**
     * `deleteItemFromSheet` with `headers` taken to be the header row of the sheet: clears
     * columns A to the letter of the last header in the found row. With a blank header
     * row the range ends in '@' and the service rejects it. Rows left blank at the end of
     * the range are no longer part of the sheet's data.
     */
    method DeleteItem(id: Value) returns (r: Result<Obj>)
      modifies this`rows
      ensures var k := FindRow(old(rows), id, 1);
        && (k == -1 ==> r == Err(NotFound(id)) && rows == old(rows))
        && (k != -1 && Headers(old(rows)) == [] ==> r.Err? && r.error.ServiceFailure? && rows == old(rows))
        && (k != -1 && Headers(old(rows)) != [] ==> r == Ok(Deleted(id)) && rows == Cleared(old(rows), k))
    {
      var k := FindRow(rows, id, 1);
      if k == -1 {
        return Err(NotFound(id));
      }
      var headers := Headers(rows);
      var last := LastColumn(|headers|);
      if last.None? {
        return Err(ServiceFailure("Unable to parse range"));
      }
      rows := Cleared(rows, k);
      r := Ok(Deleted(id));
    }
  }

  /** The header loop of `getAllItemsFromSheet` for one row. */
  method DecodeRow(headers: Row, row: Row) returns (item: Obj)
    ensures item == Record(headers, row)
  {
    item := map[];
    var i := 0;
    while i < |headers|
      invariant 0 <= i <= |headers|
      invariant item == RecordOf(headers, row, i)
    {
      item := item[headers[i] := DecodeField(headers[i], Cell(row, i))];
      i := i + 1;
    }
  }

  // ---------------------------------------------------------------------------
  // Properties of decoding.

  predicate DistinctHeaders(headers: Row)
  {
    forall i, j :: 0 <= i < j < |headers| ==> headers[i] != headers[j]
  }

  /** A blank cell decodes to 0 under a numeric header, the threshold included, and to '' otherwise. */
  lemma BlankCellDecodes(header: Value)
    ensures IsDecimalHeader(header) || IsIntegerHeader(header) ==> DecodeField(header, Undefined) == Num(0.0)
    ensures !IsDecimalHeader(header) && !IsIntegerHeader(header) ==> DecodeField(header, Undefined) == Str("")
    ensures DecodeField(Str("lowStockThreshold"), Undefined) == Num(0.0)
  {
    ParseZero();
  }

  /** Header `i` is not repeated in columns `i + 1` to `n - 1`. */
  predicate LastBefore(headers: Row, i: nat, n: nat)
    requires i < n <= |headers|
  {
    forall j :: i < j < n ==> headers[j] != headers[i]
  }

  /** The properties after `n` steps are the first `n` headers. */
  lemma {:induction false} RecordOfKeys(headers: Row, row: Row, n: nat)
    requires n <= |headers|
    ensures RecordOf(headers, row, n).Keys == set i | 0 <= i < n :: headers[i]
  {
    if n > 0 {
      RecordOfKeys(headers, row, n - 1);
      var before := RecordOf(headers, row, n - 1);
      assert RecordOf(headers, row, n).Keys == before.Keys + {headers[n - 1]};
      assert (set i | 0 <= i < n :: headers[i]) == (set i | 0 <= i < n - 1 :: headers[i]) + {headers[n - 1]};
    }
  }

  /** Each header's property is decoded from the cell of its last occurrence. */
  lemma {:induction false} RecordOfSpec(headers: Row, row: Row, n: nat)
    requires n <= |headers|
    ensures forall i :: 0 <= i < n ==> headers[i] in RecordOf(headers, row, n)
    ensures forall i :: 0 <= i < n && LastBefore(headers, i, n) ==>
      RecordOf(headers, row, n)[headers[i]] == DecodeField(headers[i], Cell(row, i))
  {
    if n > 0 {
      RecordOfSpec(headers, row, n - 1);
      forall i | 0 <= i < n && LastBefore(headers, i, n)
        ensures RecordOf(headers, row, n)[headers[i]] == DecodeField(headers[i], Cell(row, i))
      {
        if i < n - 1 {
          assert headers[i] != headers[n - 1];
          assert LastBefore(headers, i, n - 1);
        }
      }
    }
  }

  /** Under distinct headers, the property named by each header is decoded from its column. */
  lemma RecordOfDistinct(headers: Row, row: Row)
    requires DistinctHeaders(headers)
    ensures Record(headers, row).Keys == set i | 0 <= i < |headers| :: headers[i]
    ensures forall i :: 0 <= i < |headers| ==>
      Record(headers, row)[headers[i]] == DecodeField(headers[i], Cell(row, i))
  {
    RecordOfKeys(headers, row, |headers|);
    RecordOfSpec(headers, row, |headers|);
    assert forall i :: 0 <= i < |headers| ==> LastBefore(headers, i, |headers|);
  }

  /** Rows that agree on the first `n` columns decode alike: the decode reads nothing else. */
  lemma {:induction false} SameColumnsSameRecord(headers: Row, a: Row, b: Row, n: nat)
    requires n <= |headers|
    requires forall i :: 0 <= i < n ==> Cell(a, i) == Cell(b, i)
    ensures RecordOf(headers, a, n) == RecordOf(headers, b, n)
    decreases n, 1
  {
    if n > 0 {
      SameColumnSameStep(headers, a, b, n);
    }
  }

  /** One step of the header loop reads one column only. */
  lemma SameColumnSameStep(headers: Row, a: Row, b: Row, n: nat)
    requires 0 < n <= |headers|
    requires forall i :: 0 <= i < n ==> Cell(a, i) == Cell(b, i)
    ensures RecordOf(headers, a, n) == RecordOf(headers, b, n)
    decreases n, 0
  {
    SameColumnsSameRecord(headers, a, b, n - 1);
    assert Cell(a, n - 1) == Cell(b, n - 1);
  }

  /** The properties a value under `header` keeps through saving and reading. */
  predicate Kept(header: Value, v: Value)
  {
    if IsDecimalHeader(header) then v.Num?
    else if IsIntegerHeader(header) then v.Num? && IsInteger(v.x)
    else TextKept(v)
  }

  /** A truthy cell under a price header reads back as itself exactly when it is a number. */
  lemma TruthyDecimalReadsBack(w: Value)
    requires Truthy(w)
    ensures ParseFloatValue(w) == w <==> w.Num?
  {
  }

  /** A truthy cell under a count header reads back as itself exactly when it is an integer. */
  lemma TruthyIntegerReadsBack(w: Value)
    requires Truthy(w)
    ensures ParseIntValue(w) == w <==> w.Num? && IsInteger(w.x)
  {
    if w.Num? {
      TruncateKeeps(w.x);
    }
  }

  /** A truthy cell reads back as itself exactly when it is kept. */
  lemma TruthyFieldReadsBack(header: Value, w: Value)
    requires Truthy(w)
    ensures DecodeField(header, w) == w <==> Kept(header, w)
  {
    assert Or(w, Str("0")) == w && Or(w, Str("")) == w;
    if IsDecimalHeader(header) {
      TruthyDecimalReadsBack(w);
    } else if IsIntegerHeader(header) {
      TruthyIntegerReadsBack(w);
    }
  }

  /** A falsy cell reads as 0 under a numeric header and as '' otherwise. */
  lemma FalsyFieldDecodes(header: Value, w: Value)
    requires !Truthy(w)
    ensures DecodeField(header, w) == if IsDecimalHeader(header) || IsIntegerHeader(header) then Num(0.0) else Str("")
  {
    assert Or(w, Str("0")) == Str("0") && Or(w, Str("")) == Str("");
    if IsDecimalHeader(header) || IsIntegerHeader(header) {
      ZeroCellDecodes();
    }
  }

  /** The default '0' of a blank numeric cell reads as the number 0. */
  lemma ZeroCellDecodes()
    ensures ParseFloatValue(Str("0")) == Num(0.0) && ParseIntValue(Str("0")) == Num(0.0)
  {
    ParseZero();
  }

  /** A saved cell `v || ''` reads back as `v` exactly when `v` is kept. */
  lemma SavedFieldReadsBack(header: Value, v: Value)
    ensures DecodeField(header, Or(v, Str(""))) == v <==> Kept(header, v)
  {
    if Truthy(v) {
      assert Or(v, Str("")) == v;
      TruthyFieldReadsBack(header, v);
    } else {
      assert !Truthy(Or(v, Str("")));
      FalsyFieldDecodes(header, Or(v, Str("")));
    }
  }

  /** An updated cell `v` (other than undefined) reads back as `v` exactly when `v` is kept: 0 stays 0. */
  lemma UpdatedFieldReadsBack(header: Value, v: Value)
    requires v != Undefined
    ensures DecodeField(header, v) == v <==> Kept(header, v)
  {
    if Truthy(v) {
      TruthyFieldReadsBack(header, v);
    } else {
      FalsyFieldDecodes(header, v);
    }
  }

  /** No cell of a saved row is skipped: `|| ''` never yields undefined or NaN. */
  lemma SavedRowWritten(headers: Row, item: Obj)
    ensures forall i :: 0 <= i < |headers| ==> Cell(WriteCells([], SavedRow(headers, item)), i) == SavedRow(headers, item)[i]
  {
    var r := SavedRow(headers, item);
    assert forall i :: 0 <= i < |r| ==> !Skipped(r[i]);
  }

  /**
   * Under distinct headers, reading the saved row gives each header's property back
   * exactly when the value is kept.
   */
  lemma SaveThenReadRecord(headers: Row, item: Obj)
    requires DistinctHeaders(headers)
    ensures forall i :: 0 <= i < |headers| ==>
      ((Lookup(Record(headers, WriteCells([], SavedRow(headers, item))), headers[i]) == Lookup(item, headers[i]))
       <==> Kept(headers[i], Lookup(item, headers[i])))
  {
    var row := WriteCells([], SavedRow(headers, item));
    RecordOfDistinct(headers, row);
    SavedRowWritten(headers, item);
    forall i | 0 <= i < |headers| ensures
      Lookup(Record(headers, row), headers[i]) == Lookup(item, headers[i]) <==> Kept(headers[i], Lookup(item, headers[i]))
    {
      SavedFieldReadsBack(headers[i], Lookup(item, headers[i]));
    }
  }

  // ---------------------------------------------------------------------------
  // Properties of the table operations.

  /** Appending a row below the header appends its object to the items read. */
  lemma ItemsOfAppend(rows: seq<Row>, row: Row)
    requires rows != []
    ensures ItemsOf(rows + [row]) == ItemsOf(rows) + [Record(Headers(rows), row)]
  {
    assert (rows + [row])[0] == rows[0];
    assert Headers(rows + [row]) == Headers(rows);
  }

  /** Rewriting a data row changes only that row's object among the items read. */
  lemma ItemsOfRewrite(rows: seq<Row>, k: nat, row: Row)
    requires 1 <= k < |rows|
    ensures |ItemsOf(rows[k := row])| == |ItemsOf(rows)|
    ensures ItemsOf(rows[k := row])[k - 1] == Record(Headers(rows), row)
    ensures forall j :: 0 <= j < |ItemsOf(rows)| && j != k - 1 ==> ItemsOf(rows[k := row])[j] == ItemsOf(rows)[j]
  {
    assert rows[k := row][0] == rows[0];
    assert Headers(rows[k := row]) == Headers(rows);
  }

  /** A row cleared across the header columns reads as every header's blank value. */
  lemma ClearedRowReadsBlank(headers: Row, row: Row)
    ensures Record(headers, ClearCells(row, |headers|)) == Record(headers, [])
  {
    SameColumnsSameRecord(headers, ClearCells(row, |headers|), [], |headers|);
  }

  /** The sheet after the corrected delete clears row `k` across the header columns. */
  function Cleared(rows: seq<Row>, k: nat): seq<Row>
    requires k < |rows|
  {
    TrimmedRows(rows[k := ClearCells(rows[k], |Headers(rows)|)], Width)
  }

  /**
   * Clearing the last data row: when the row holds nothing past the header columns it is
   * dropped and the read loses at least that item; otherwise it stays and reads blank.
   */
  lemma DeleteLastRowShrinksRead(rows: seq<Row>, k: nat)
    requires 1 <= k == |rows| - 1
    ensures BlankRow(ClearCells(rows[k], |Headers(rows)|), Width) ==>
      |Cleared(rows, k)| <= k && |ItemsOf(Cleared(rows, k))| < |ItemsOf(rows)|
    ensures !BlankRow(ClearCells(rows[k], |Headers(rows)|), Width) ==>
      Cleared(rows, k) == rows[k := ClearCells(rows[k], |Headers(rows)|)]
      && |ItemsOf(Cleared(rows, k))| == |ItemsOf(rows)|
  {
    var rows' := rows[k := ClearCells(rows[k], |Headers(rows)|)];
    assert rows'[k] == ClearCells(rows[k], |Headers(rows)|);
    assert rows'[0] == rows[0];
  }

  /** A concrete sheet on which the id is found, so the delete as written throws. */
  lemma DeleteAsWrittenReachesHeaders()
    ensures FindRow([[Str("id"), Str("name")], [Str("TU001"), Str("Drill")]], Str("TU001"), 1) == 1
  {
  }
}
