/**
 * The spreadsheet adapter with a fixed column order (columns A to J hold id, name,
 * category, sku, price, costPrice, quantity, lowStockThreshold, imageUrl, profit).
 * Reading decodes rows positionally, skipping row 1 only when its first cell is "id";
 * saving appends a row; updating overwrites the first row whose id matches, scanning
 * from row 1 and appending when there is none; deleting clears the row's cells.
 */
module FixedSheet {
  import opened Js
  import opened JsText
  import opened Table

  /** The ten property names in column order. */
  const Fields: seq<string> :=
    ["id", "name", "category", "sku", "price", "costPrice", "quantity", "lowStockThreshold", "imageUrl", "profit"]

  /** The property keys of a decoded item. */
  function FieldKeys(): set<Value>
  {
    {Str("id"), Str("name"), Str("category"), Str("sku"), Str("price"), Str("costPrice"),
     Str("quantity"), Str("lowStockThreshold"), Str("imageUrl"), Str("profit")}
  }

  /** The header row written to an empty sheet. */
  function HeaderRow(): (r: Row)
    ensures |r| == 10 && forall i :: 0 <= i < 10 ==> r[i] == Str(Fields[i])
  {
    seq(10, i requires 0 <= i < 10 => Str(Fields[i]))
  }

  /** The row written for an item: falsy optional fields become '' or 0, and the threshold 5. */
  function EncodeRow(item: Obj): (r: Row)
    ensures |r| == 10
  {
    [ Prop(item, "id"),
      Prop(item, "name"),
      Or(Prop(item, "category"), Str("")),
      Or(Prop(item, "sku"), Str("")),
      Or(Prop(item, "price"), Num(0.0)),
      Or(Prop(item, "costPrice"), Num(0.0)),
      Or(Prop(item, "quantity"), Num(0.0)),
      Or(Prop(item, "lowStockThreshold"), Num(5.0)),
      Or(Prop(item, "imageUrl"), Str("")),
      Or(Prop(item, "profit"), Num(0.0)) ]
  }

  /** The property `key` of the item read from a row: blank text as '', blank numbers as 0 and a blank threshold as 5. */
  function DecodeField(key: Value, row: Row): Value
  {
    if key == Str("id") then Cell(row, 0)
    else if key == Str("name") then Cell(row, 1)
    else if key == Str("category") then Or(Cell(row, 2), Str(""))
    else if key == Str("sku") then Or(Cell(row, 3), Str(""))
    else if key == Str("price") then ParseFloatValue(Or(Cell(row, 4), Num(0.0)))
    else if key == Str("costPrice") then ParseFloatValue(Or(Cell(row, 5), Num(0.0)))
    else if key == Str("quantity") then ParseIntValue(Or(Cell(row, 6), Num(0.0)))
    else if key == Str("lowStockThreshold") then ParseIntValue(Or(Cell(row, 7), Num(5.0)))
    else if key == Str("imageUrl") then Or(Cell(row, 8), Str(""))
    else if key == Str("profit") then ParseFloatValue(Or(Cell(row, 9), Num(0.0)))
    else Undefined
  }

  /** The item read from a row: the ten properties, each decoded from its column. */
  function DecodeRow(row: Row): (item: Obj)
    ensures item.Keys == FieldKeys()
    ensures forall k :: k in item ==> item[k] == DecodeField(k, row)
  {
    map k | k in FieldKeys() :: DecodeField(k, row)
  }

  /** 1 when row 1 is the header (its first cell is "id"), else 0. */
  function StartIndex(rows: seq<Row>): (s: nat)
    ensures s <= |rows|
    ensures s == 1 <==> rows != [] && Cell(rows[0], 0) == Str("id")
  {
    if rows != [] && Cell(rows[0], 0) == Str("id") then 1 else 0
  }

  /** Each row decoded, in order. */
  function DecodeRows(rs: seq<Row>): (items: seq<Obj>)
    ensures |items| == |rs|
    ensures forall j :: 0 <= j < |rs| ==> items[j] == DecodeRow(rs[j])
  {
    seq(|rs|, j requires 0 <= j < |rs| => DecodeRow(rs[j]))
  }

  /** The items of a non-empty sheet: every row from the start index on, decoded. */
  function ItemsOf(rows: seq<Row>): (items: seq<Obj>)
    ensures |items| == |rows| - StartIndex(rows)
  {
    DecodeRows(rows[StartIndex(rows)..])
  }

  /** What a blank row reads as. */
  function BlankItem(): Obj
  {
    DecodeRow([])
  }

  /**
   * The items that a write followed by a read gives back unchanged: exactly the ten
   * properties, an id and a name other than NaN (sent as null, read back blank), text
   * fields truthy or '', numbers that are numbers, whole quantity and threshold, and a
   * threshold other than 0.
   */
  predicate RoundTrips(item: Obj)
  {
    && item.Keys == FieldKeys()
    && !Prop(item, "id").NaN? && !Prop(item, "name").NaN?
    && TextKept(Prop(item, "category")) && TextKept(Prop(item, "sku")) && TextKept(Prop(item, "imageUrl"))
    && Prop(item, "price").Num? && Prop(item, "costPrice").Num? && Prop(item, "profit").Num?
    && Prop(item, "quantity").Num? && IsInteger(Prop(item, "quantity").x)
    && Prop(item, "lowStockThreshold").Num? && IsInteger(Prop(item, "lowStockThreshold").x)
    && Prop(item, "lowStockThreshold").x != 0.0
  }

  /** The spreadsheet, columns A to J of the Inventory sheet. */
  class Sheet {
    var rows: seq<Row>

    constructor(initial: seq<Row>)
      ensures rows == initial
    {
      rows := initial;
    }

    /** `getAllItemsFromSheets`: an empty sheet gets the header row and reads as no items. */
    method GetAllItems() returns (items: seq<Obj>)
      modifies this`rows
      ensures old(rows) == [] ==> rows == [HeaderRow()] && items == []
      ensures old(rows) != [] ==> rows == old(rows) && items == ItemsOf(rows)
    {
      if rows == [] {
        rows := rows + [WriteCells([], HeaderRow())];
        assert WriteCells([], HeaderRow()) == HeaderRow();
        return [];
      }
      items := ItemsOf(rows);
    }

    /** `saveItemToSheets`: appends the encoded row and returns the item. */
    method SaveItem(item: Obj) returns (saved: Obj)
      modifies this`rows
      ensures rows == old(rows) + [WriteCells([], EncodeRow(item))]
      ensures saved == item
    {
      rows := rows + [WriteCells([], EncodeRow(item))];
      saved := item;
    }

    /**
     * `updateItemInSheets`: overwrites the first row, header included, whose first cell is
     * `item.id`; with none it saves the item instead.
     */
    method UpdateItem(item: Obj) returns (saved: Obj)
      modifies this`rows
      ensures var k := FindRow(old(rows), Prop(item, "id"), 0);
        && (k == -1 ==> rows == old(rows) + [WriteCells([], EncodeRow(item))])
        && (k != -1 ==> rows == old(rows)[k := WriteCells(old(rows)[k], EncodeRow(item))])
      ensures saved == item
    {
      var k := FindRow(rows, Prop(item, "id"), 0);
      if k == -1 {
        saved := SaveItem(item);
        return;
      }
      rows := rows[k := WriteCells(rows[k], EncodeRow(item))];
      saved := item;
    }

    /**
     * `deleteItemFromSheets`: clears columns A to J of the first row whose first cell is `id`.
     * Rows left blank at the end of the range are no longer part of the sheet's data.
     */
    method DeleteItem(id: Value) returns (r: Result<Obj>)
      modifies this`rows
      ensures var k := FindRow(old(rows), id, 0);
        && (k == -1 ==> r == Err(NotFound(id)) && rows == old(rows))
        && (k != -1 ==> r == Ok(map[Str("id") := id]) && rows == Cleared(old(rows), k))
    {
      var k := FindRow(rows, id, 0);
      if k == -1 {
        return Err(NotFound(id));
      }
      rows := Cleared(rows, k);
      r := Ok(map[Str("id") := id]);
    }
  }

  // ---------------------------------------------------------------------------
  // Properties of the row format.

  lemma OrKeepsText(v: Value)
    ensures Or(v, Str("")) == v <==> TextKept(v)
  {
  }

  lemma ParseFloatKeeps(v: Value)
    ensures ParseFloatValue(Or(v, Num(0.0))) == v <==> v.Num?
  {
  }

  lemma ParseIntKeeps(v: Value, fallback: real)
    requires fallback != 0.0 && IsInteger(fallback)
    ensures ParseIntValue(Or(v, Num(0.0))) == v <==> v.Num? && IsInteger(v.x)
    ensures ParseIntValue(Or(v, Num(fallback))) == v <==> v.Num? && IsInteger(v.x) && v.x != 0.0
  {
    if v.Num? {
      TruncateKeeps(v.x);
    }
  }

  /** The cells of an appended item row: the encoded values, with a skipped id or name left blank. */
  lemma AppendedCells(item: Obj)
    ensures var row := WriteCells([], EncodeRow(item));
      && Cell(row, 0) == (if Skipped(Prop(item, "id")) then Undefined else Prop(item, "id"))
      && Cell(row, 1) == (if Skipped(Prop(item, "name")) then Undefined else Prop(item, "name"))
      && Cell(row, 2) == Or(Prop(item, "category"), Str(""))
      && Cell(row, 3) == Or(Prop(item, "sku"), Str(""))
      && Cell(row, 4) == Or(Prop(item, "price"), Num(0.0))
      && Cell(row, 5) == Or(Prop(item, "costPrice"), Num(0.0))
      && Cell(row, 6) == Or(Prop(item, "quantity"), Num(0.0))
      && Cell(row, 7) == Or(Prop(item, "lowStockThreshold"), Num(5.0))
      && Cell(row, 8) == Or(Prop(item, "imageUrl"), Str(""))
      && Cell(row, 9) == Or(Prop(item, "profit"), Num(0.0))
  {
    var e := EncodeRow(item);
    assert forall i :: 2 <= i < 10 ==> !Skipped(e[i]);
  }

  /** The item a read gives back for the row that saving `item` appends. */
  function ReadBack(item: Obj): Obj
  {
    DecodeRow(WriteCells([], EncodeRow(item)))
  }

  /** The id and the name of an appended row read back unless they were skipped. */
  lemma ReadBackIdName(item: Obj)
    ensures Prop(ReadBack(item), "id") == (if Skipped(Prop(item, "id")) then Undefined else Prop(item, "id"))
    ensures Prop(ReadBack(item), "name") == (if Skipped(Prop(item, "name")) then Undefined else Prop(item, "name"))
  {
    AppendedCells(item);
  }

  /** The text columns of an appended row read back through their defaults. */
  lemma ReadBackText(item: Obj)
    ensures Prop(ReadBack(item), "category") == Or(Or(Prop(item, "category"), Str("")), Str(""))
    ensures Prop(ReadBack(item), "sku") == Or(Or(Prop(item, "sku"), Str("")), Str(""))
    ensures Prop(ReadBack(item), "imageUrl") == Or(Or(Prop(item, "imageUrl"), Str("")), Str(""))
  {
    AppendedCells(item);
  }

  /** The price columns of an appended row read back through their defaults and `parseFloat`. */
  lemma ReadBackPrices(item: Obj)
    ensures Prop(ReadBack(item), "price") == ParseFloatValue(Or(Or(Prop(item, "price"), Num(0.0)), Num(0.0)))
    ensures Prop(ReadBack(item), "costPrice") == ParseFloatValue(Or(Or(Prop(item, "costPrice"), Num(0.0)), Num(0.0)))
    ensures Prop(ReadBack(item), "profit") == ParseFloatValue(Or(Or(Prop(item, "profit"), Num(0.0)), Num(0.0)))
  {
    AppendedCells(item);
  }

  /** The count columns of an appended row read back through their defaults and `parseInt`. */
  lemma ReadBackCounts(item: Obj)
    ensures Prop(ReadBack(item), "quantity") == ParseIntValue(Or(Or(Prop(item, "quantity"), Num(0.0)), Num(0.0)))
    ensures Prop(ReadBack(item), "lowStockThreshold")
         == ParseIntValue(Or(Or(Prop(item, "lowStockThreshold"), Num(5.0)), Num(5.0)))
  {
    AppendedCells(item);
  }

  /** Each property of the item read back from its appended row. */
  lemma ReadBackFields(item: Obj)
    ensures Prop(ReadBack(item), "id") == (if Skipped(Prop(item, "id")) then Undefined else Prop(item, "id"))
    ensures Prop(ReadBack(item), "name") == (if Skipped(Prop(item, "name")) then Undefined else Prop(item, "name"))
    ensures Prop(ReadBack(item), "category") == Or(Or(Prop(item, "category"), Str("")), Str(""))
    ensures Prop(ReadBack(item), "sku") == Or(Or(Prop(item, "sku"), Str("")), Str(""))
    ensures Prop(ReadBack(item), "imageUrl") == Or(Or(Prop(item, "imageUrl"), Str("")), Str(""))
    ensures Prop(ReadBack(item), "price") == ParseFloatValue(Or(Or(Prop(item, "price"), Num(0.0)), Num(0.0)))
    ensures Prop(ReadBack(item), "costPrice") == ParseFloatValue(Or(Or(Prop(item, "costPrice"), Num(0.0)), Num(0.0)))
    ensures Prop(ReadBack(item), "profit") == ParseFloatValue(Or(Or(Prop(item, "profit"), Num(0.0)), Num(0.0)))
    ensures Prop(ReadBack(item), "quantity") == ParseIntValue(Or(Or(Prop(item, "quantity"), Num(0.0)), Num(0.0)))
    ensures Prop(ReadBack(item), "lowStockThreshold")
         == ParseIntValue(Or(Or(Prop(item, "lowStockThreshold"), Num(5.0)), Num(5.0)))
  {
    ReadBackIdName(item);
    ReadBackText(item);
    ReadBackPrices(item);
    ReadBackCounts(item);
  }

  /** Two objects with the ten keys are equal when their ten properties are. */
  lemma SameFields(a: Obj, b: Obj)
    requires a.Keys == FieldKeys() && b.Keys == FieldKeys()
    requires Prop(a, "id") == Prop(b, "id") && Prop(a, "name") == Prop(b, "name")
    requires Prop(a, "category") == Prop(b, "category") && Prop(a, "sku") == Prop(b, "sku")
    requires Prop(a, "price") == Prop(b, "price") && Prop(a, "costPrice") == Prop(b, "costPrice")
    requires Prop(a, "quantity") == Prop(b, "quantity") && Prop(a, "lowStockThreshold") == Prop(b, "lowStockThreshold")
    requires Prop(a, "imageUrl") == Prop(b, "imageUrl") && Prop(a, "profit") == Prop(b, "profit")
    ensures a == b
  {
    forall k | k in FieldKeys() ensures a[k] == b[k] {
    }
  }

  /**
   * Decoding the row that saving writes gives the item back exactly when the item
   * `RoundTrips`: the defaults of encoding and decoding lose nothing else.
   */
  lemma DecodeEncode(item: Obj)
    ensures ReadBack(item) == item <==> RoundTrips(item)
  {
    ReadBackFields(item);
    OrKeepsText(Prop(item, "category"));
    OrKeepsText(Prop(item, "sku"));
    OrKeepsText(Prop(item, "imageUrl"));
    ParseFloatKeeps(Prop(item, "price"));
    ParseFloatKeeps(Prop(item, "costPrice"));
    ParseFloatKeeps(Prop(item, "profit"));
    ParseIntKeeps(Prop(item, "quantity"), 5.0);
    ParseIntKeeps(Prop(item, "lowStockThreshold"), 5.0);
    if RoundTrips(item) {
      SameFields(ReadBack(item), item);
    }
  }

  /** A blank row reads as no id and no name, '' for text, 0 for numbers and 5 for the threshold. */
  lemma BlankItemFields()
    ensures BlankItem().Keys == FieldKeys()
    ensures Prop(BlankItem(), "id") == Undefined && Prop(BlankItem(), "name") == Undefined
    ensures Prop(BlankItem(), "category") == Str("") && Prop(BlankItem(), "sku") == Str("")
    ensures Prop(BlankItem(), "imageUrl") == Str("")
    ensures Prop(BlankItem(), "price") == Num(0.0) && Prop(BlankItem(), "costPrice") == Num(0.0)
    ensures Prop(BlankItem(), "profit") == Num(0.0) && Prop(BlankItem(), "quantity") == Num(0.0)
    ensures Prop(BlankItem(), "lowStockThreshold") == Num(5.0)
  {
    BlankText();
    BlankNumbers();
  }

  lemma BlankText()
    ensures Prop(BlankItem(), "id") == Undefined && Prop(BlankItem(), "name") == Undefined
    ensures Prop(BlankItem(), "category") == Str("") && Prop(BlankItem(), "sku") == Str("")
    ensures Prop(BlankItem(), "imageUrl") == Str("")
  {
  }

  lemma BlankNumbers()
    ensures Prop(BlankItem(), "price") == Num(0.0) && Prop(BlankItem(), "costPrice") == Num(0.0)
    ensures Prop(BlankItem(), "profit") == Num(0.0) && Prop(BlankItem(), "quantity") == Num(0.0)
    ensures Prop(BlankItem(), "lowStockThreshold") == Num(5.0)
  {
    ParseIntKeeps(Num(5.0), 5.0);
  }

  /** Rows that agree on columns A to J read as the same item. */
  lemma SameColumnsSameItem(a: Row, b: Row)
    requires forall i :: 0 <= i < 10 ==> Cell(a, i) == Cell(b, i)
    ensures DecodeRow(a) == DecodeRow(b)
  {
    forall k | k in FieldKeys() ensures DecodeField(k, a) == DecodeField(k, b) {
    }
  }

  /** A cleared row reads as the blank item: the read path does not drop it. */
  lemma ClearedRowReadsBlank(row: Row)
    ensures DecodeRow(ClearCells(row, 10)) == BlankItem()
  {
    SameColumnsSameItem(ClearCells(row, 10), []);
  }

  /** Appending a row to a sheet that has rows appends its item to the items read. */
  lemma ItemsOfAppend(rows: seq<Row>, row: Row)
    requires rows != []
    ensures ItemsOf(rows + [row]) == ItemsOf(rows) + [DecodeRow(row)]
  {
    var rows' := rows + [row];
    assert rows'[0] == rows[0];
    var k := StartIndex(rows);
    assert StartIndex(rows') == k;
    assert rows'[k..] == rows[k..] + [row];
    DecodeRowsAppend(rows[k..], row);
  }

  lemma DecodeRowsAppend(rs: seq<Row>, row: Row)
    ensures DecodeRows(rs + [row]) == DecodeRows(rs) + [DecodeRow(row)]
  {
    var a, b := DecodeRows(rs + [row]), DecodeRows(rs) + [DecodeRow(row)];
    forall j | 0 <= j < |a| ensures a[j] == b[j] {
      assert (rs + [row])[j] == if j < |rs| then rs[j] else row;
    }
  }

  /** Saving to a sheet that has rows adds exactly the decoded new row at the end of the item list. */
  lemma SaveThenRead(rows: seq<Row>, item: Obj)
    requires rows != []
    ensures ItemsOf(rows + [WriteCells([], EncodeRow(item))]) == ItemsOf(rows) + [ReadBack(item)]
    ensures RoundTrips(item) ==> ItemsOf(rows + [WriteCells([], EncodeRow(item))]) == ItemsOf(rows) + [item]
  {
    ItemsOfAppend(rows, WriteCells([], EncodeRow(item)));
    DecodeEncode(item);
  }

  /** The sheet after the delete clears row `k`. */
  function Cleared(rows: seq<Row>, k: nat): seq<Row>
    requires k < |rows|
  {
    TrimmedRows(rows[k := ClearCells(rows[k], 10)], 10)
  }

  /**
   * Clearing a row that is not the header and is followed by the sheet's last, non-blank,
   * row keeps the items read, the cleared one reading blank.
   */
  lemma DeleteKeepsItemCount(rows: seq<Row>, k: nat)
    requires k < |rows| - 1 && !BlankRow(rows[|rows| - 1], 10)
    requires k > 0 || Cell(rows[0], 0) != Str("id")
    ensures Cleared(rows, k) == rows[k := ClearCells(rows[k], 10)]
    ensures |ItemsOf(Cleared(rows, k))| == |ItemsOf(rows)|
    ensures k >= StartIndex(rows) ==> ItemsOf(Cleared(rows, k))[k - StartIndex(rows)] == BlankItem()
  {
    var rows' := rows[k := ClearCells(rows[k], 10)];
    ClearedBeforeLastRow(rows, k);
    if k == 0 {
      assert Cell(rows'[0], 0) == Undefined;
    } else {
      assert rows'[0] == rows[0];
    }
    assert StartIndex(rows') == StartIndex(rows);
    ClearedRowReadsBlank(rows[k]);
  }

  /** With the non-blank last row kept, the delete drops no row. */
  lemma ClearedBeforeLastRow(rows: seq<Row>, k: nat)
    requires k < |rows| - 1 && !BlankRow(rows[|rows| - 1], 10)
    ensures Cleared(rows, k) == rows[k := ClearCells(rows[k], 10)]
  {
    var rows' := rows[k := ClearCells(rows[k], 10)];
    assert rows'[|rows'| - 1] == rows[|rows| - 1];
  }

  /**
   * Clearing the last data row drops it from the sheet with the blank rows before it: the
   * read loses at least that item, and exactly that one when the row above holds a value.
   */
  lemma DeleteLastRowShrinksRead(rows: seq<Row>, k: nat)
    requires k == |rows| - 1 && k >= StartIndex(rows)
    ensures |Cleared(rows, k)| <= k
    ensures |ItemsOf(Cleared(rows, k))| < |ItemsOf(rows)|
    ensures k > 0 && !BlankRow(rows[k - 1], 10) ==>
      Cleared(rows, k) == rows[..k] && |ItemsOf(Cleared(rows, k))| == |ItemsOf(rows)| - 1
  {
    var rows' := rows[k := ClearCells(rows[k], 10)];
    var t := Cleared(rows, k);
    assert BlankRow(rows'[k], 10);
    assert |t| <= k;
    assert t == rows[..|t|] by {
      forall j | 0 <= j < |t| ensures t[j] == rows[j] {
        assert t[j] == rows'[j];
      }
    }
    if t != [] {
      assert t[0] == rows[0];
      assert StartIndex(t) == StartIndex(rows);
    }
    if k > 0 && !BlankRow(rows[k - 1], 10) {
      assert rows'[k - 1] == rows[k - 1];
      assert |t| == k;
    }
  }

}
