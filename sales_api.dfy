/**
 * The `/api/sales` handler: POST records a sale as a row of the Sales sheet (columns A
 * to G) and sends the sold item, with its quantity lowered and its profit raised, to the
 * item update; GET lists the recorded sales, optionally between two dates. Dates are
 * instants given as integers: `time` stands for `new Date(v)`, `None` for an invalid date.
 * `failure` stands for the spreadsheet client rejecting, `updateError` for the error the
 * item update throws, if any; every thrown error becomes a 500.
 */
module SalesApi {
  import opened Js
  import opened JsText
  import opened Http
  import opened Table
  import opened Seqs

  /** `const { item, quantity, date } = req.body`; `item` is `None` when the body has none. */
  datatype SaleRequest = SaleRequest(item: Option<Obj>, quantity: Value, date: Value)

  /** A sale as GET returns it. */
  datatype SaleRecord = SaleRecord(
    id: Value, itemId: Value, itemName: Value, quantity: Value, total: Value, profit: Value, date: Value)

  /** The JSON bodies the handler answers with. */
  datatype Body =
    | Recorded(id: string, item: Obj, quantity: Value, totalAmount: Value, profit: Value, date: Value)
    | SaleList(sales: seq<SaleRecord>)
    | Message(text: string)
    | Failure(error: Thrown)

  /** A POST is refused unless it carries an item and a truthy quantity. */
  predicate Accepted(req: SaleRequest)
  {
    req.item.Some? && Truthy(req.quantity)
  }

  /** The date recorded: the request's, or the current time `now` when it has none. */
  function SaleDate(req: SaleRequest, now: string): Value
  {
    if req.date.Undefined? then Str(now) else req.date
  }

  /** `totalAmount = item.price * quantity`. */
  function SaleTotal(item: Obj, quantity: Value): Value
  {
    Times(Prop(item, "price"), quantity)
  }

  /** `profit = (item.price - item.costPrice) * quantity`. */
  function SaleProfit(item: Obj, quantity: Value): Value
  {
    Times(Minus(Prop(item, "price"), Prop(item, "costPrice")), quantity)
  }

  /** The appended row: sale id, item id, item name, quantity, total, profit, date. */
  function SaleRow(saleId: string, item: Obj, quantity: Value, date: Value): (r: Row)
    ensures |r| == 7
  {
    [Str(saleId), Prop(item, "id"), Prop(item, "name"), quantity, SaleTotal(item, quantity), SaleProfit(item, quantity), date]
  }

  /** `{ ...item, quantity: item.quantity - quantity, profit: (item.profit || 0) + profit }`. */
  function UpdatedItem(item: Obj, quantity: Value): (r: Obj)
    ensures Prop(r, "quantity") == Minus(Prop(item, "quantity"), quantity)
    ensures Prop(r, "profit") == Plus(Or(Prop(item, "profit"), Num(0.0)), SaleProfit(item, quantity))
    ensures forall k :: k != Str("quantity") && k != Str("profit") ==> Lookup(r, k) == Lookup(item, k)
  {
    item[Str("quantity") := Minus(Prop(item, "quantity"), quantity)]
        [Str("profit") := Plus(Or(Prop(item, "profit"), Num(0.0)), SaleProfit(item, quantity))]
  }

  /** One row of the sheet as a sale. */
  function DecodeSale(row: Row): SaleRecord
  {
    SaleRecord(Cell(row, 0), Cell(row, 1), Cell(row, 2), ParseIntValue(Cell(row, 3)),
      ParseFloatValue(Cell(row, 4)), ParseFloatValue(Cell(row, 5)), Cell(row, 6))
  }

  /** `rows.slice(1).map(...)`: the first row is always taken for a header. */
  function SalesOf(rows: seq<Row>): (r: seq<SaleRecord>)
    ensures |r| == (if rows == [] then 0 else |rows| - 1)
    ensures forall i :: 0 <= i < |r| ==> r[i] == DecodeSale(rows[i + 1])
  {
    if rows == [] then [] else seq(|rows| - 1, i requires 0 <= i < |rows| - 1 => DecodeSale(rows[i + 1]))
  }

  /** `new Date(v)` as an instant: `undefined` (a row without a date cell) is always an invalid date. */
  function Instant(time: Value -> Option<int>, v: Value): Option<int>
  {
    if v.Undefined? then None else time(v)
  }

  /**
   * The date filter: without both bounds every sale passes; otherwise both bounds are inclusive,
   * and an invalid date on either side fails the comparison.
   */
  predicate InRange(s: SaleRecord, start: Value, end: Value, time: Value -> Option<int>)
  {
    !Truthy(start) || !Truthy(end)
    || (Instant(time, s.date).Some? && Instant(time, start).Some? && Instant(time, end).Some?
        && Instant(time, start).value <= Instant(time, s.date).value <= Instant(time, end).value)
  }

  /** The sales GET lists. */
  function Listed(rows: seq<Row>, start: Value, end: Value, time: Value -> Option<int>): seq<SaleRecord>
  {
    Filter(SalesOf(rows), s => InRange(s, start, end, time))
  }

  /** The Sales sheet. */
  class SalesSheet {
    var rows: seq<Row>

    constructor(initial: seq<Row>)
      ensures rows == initial
    {
      rows := initial;
    }
  }

  /**
   * `handler(req, res)` for the request `m`, `req` (the body) and `query`, with an item update
   * that can reach the items endpoint (an absolute URL, or the store called directly).
   */
  method Handle(sheet: SalesSheet, m: Method, req: SaleRequest, query: Obj, saleId: string, now: string,
                time: Value -> Option<int>, failure: Option<string>, updateError: Option<Thrown>)
    returns (res: Response<Body>)
    modifies sheet
    ensures m.Post? && !Accepted(req) ==>
      res == Response(BadRequest, Message("Item and quantity are required")) && sheet.rows == old(sheet.rows)
    ensures (m.Get? || (m.Post? && Accepted(req))) && failure.Some? ==>
      res == Response(ServerError, Failure(ServiceFailure(failure.value))) && sheet.rows == old(sheet.rows)
    ensures m.Post? && Accepted(req) && failure.None? ==>
      sheet.rows == old(sheet.rows) + [WriteCells([], SaleRow(saleId, req.item.value, req.quantity, SaleDate(req, now)))]
    ensures m.Post? && Accepted(req) && failure.None? && updateError.Some? ==>
      res == Response(ServerError, Failure(updateError.value))
    ensures m.Post? && Accepted(req) && failure.None? && updateError.None? ==>
      var item := req.item.value;
      res == Response(Created, Recorded(saleId, UpdatedItem(item, req.quantity), req.quantity,
        SaleTotal(item, req.quantity), SaleProfit(item, req.quantity), SaleDate(req, now)))
    ensures m.Get? && failure.None? ==>
      res == Response(OK, SaleList(Listed(old(sheet.rows), Prop(query, "startDate"), Prop(query, "endDate"), time)))
      && sheet.rows == old(sheet.rows)
    ensures !m.Post? && !m.Get? ==> res == Response(MethodNotAllowed, Message(NotAllowedMessage)) && sheet.rows == old(sheet.rows)
  {
    match m {
      case Post =>
        if !Accepted(req) {
          return Response(BadRequest, Message("Item and quantity are required"));
        }
        var item := req.item.value;
        var date := SaleDate(req, now);
        var totalAmount := SaleTotal(item, req.quantity);
        var profit := SaleProfit(item, req.quantity);
        if failure.Some? {
          return Response(ServerError, Failure(ServiceFailure(failure.value)));
        }
        sheet.rows := sheet.rows + [WriteCells([], SaleRow(saleId, item, req.quantity, date))];
        var updatedItem := UpdatedItem(item, req.quantity);
        if updateError.Some? {
          return Response(ServerError, Failure(updateError.value));
        }
        res := Response(Created, Recorded(saleId, updatedItem, req.quantity, totalAmount, profit, date));
      case Get =>
        if failure.Some? {
          return Response(ServerError, Failure(ServiceFailure(failure.value)));
        }
        res := Response(OK, SaleList(Listed(sheet.rows, Prop(query, "startDate"), Prop(query, "endDate"), time)));
      case _ =>
        res := Response(MethodNotAllowed, Message(NotAllowedMessage));
    }
  }

  /** `${API_URL}/${item.id}` with `API_URL = '/api/items'`, for the text `idText` of the item's id. */
  function ItemUpdateUrl(idText: string): (u: string)
    ensures |u| > 0 && u[0] == '/'
  {
    "/api/items/" + idText
  }

  /** A URL that opens with a scheme (`http:`, `https:`, …): the only kind `fetch` resolves on a server. */
  predicate HasScheme(url: string)
  {
    exists i :: 0 < i < |url| && url[i] == ':' && IsAsciiLetter(url[0])
      && forall j :: 0 < j < i ==> IsAsciiLetter(url[j]) || IsDigit(url[j]) || url[j] in "+-."
  }

  predicate IsAsciiLetter(c: char)
  {
    'a' <= c <= 'z' || 'A' <= c <= 'Z'
  }

  /** Whatever the item's id, the update URL has no scheme, so the server-side `fetch` rejects it. */
  lemma RelativeItemUpdate(idText: string)
    ensures !HasScheme(ItemUpdateUrl(idText))
  {
  }

  /**
   * The handler as written: the item update fetches `ItemUpdateUrl`, which has no scheme, so
   * `fetch` on the server throws a TypeError (`fetchError` is its message) once the sale row
   * is already appended. An accepted POST never answers 201.
   */
  method HandleAsWritten(sheet: SalesSheet, m: Method, req: SaleRequest, query: Obj, saleId: string, now: string,
                         time: Value -> Option<int>, failure: Option<string>, fetchError: string)
    returns (res: Response<Body>)
    modifies sheet
    ensures res.status != Created
    ensures m.Post? && !Accepted(req) ==>
      res == Response(BadRequest, Message("Item and quantity are required")) && sheet.rows == old(sheet.rows)
    ensures (m.Get? || (m.Post? && Accepted(req))) && failure.Some? ==>
      res == Response(ServerError, Failure(ServiceFailure(failure.value))) && sheet.rows == old(sheet.rows)
    ensures m.Post? && Accepted(req) && failure.None? ==>
      sheet.rows == old(sheet.rows) + [WriteCells([], SaleRow(saleId, req.item.value, req.quantity, SaleDate(req, now)))]
      && res == Response(ServerError, Failure(TypeError(fetchError)))
    ensures m.Get? && failure.None? ==>
      res == Response(OK, SaleList(Listed(old(sheet.rows), Prop(query, "startDate"), Prop(query, "endDate"), time)))
      && sheet.rows == old(sheet.rows)
    ensures !m.Post? && !m.Get? ==> res == Response(MethodNotAllowed, Message(NotAllowedMessage)) && sheet.rows == old(sheet.rows)
  {
    res := Handle(sheet, m, req, query, saleId, now, time, failure, Some(TypeError(fetchError)));
  }

  // ---------------------------------------------------------------------------
  // Facts about recorded sales.

  /** With numeric price, cost and quantity, the total and the profit are exact products. */
  lemma SaleAmounts(item: Obj, quantity: Value)
    requires Prop(item, "price").Num? && Prop(item, "costPrice").Num? && quantity.Num?
    ensures SaleTotal(item, quantity) == Num(Prop(item, "price").x * quantity.x)
    ensures SaleProfit(item, quantity) == Num((Prop(item, "price").x - Prop(item, "costPrice").x) * quantity.x)
    ensures SaleProfit(item, quantity).x == SaleTotal(item, quantity).x - Prop(item, "costPrice").x * quantity.x
  {
  }

  /**
   * The sold item loses exactly the quantity sold and gains exactly the sale's profit;
   * nothing bounds the quantity sold by the stock, so the new quantity can be negative.
   */
  lemma UpdatedItemSpec(item: Obj, quantity: Value)
    requires Prop(item, "price").Num? && Prop(item, "costPrice").Num? && Prop(item, "quantity").Num? && quantity.Num?
    requires Prop(item, "profit").Num? || Prop(item, "profit").Undefined?
    ensures Prop(UpdatedItem(item, quantity), "quantity").Num?
    ensures Prop(UpdatedItem(item, quantity), "quantity").x + quantity.x == Prop(item, "quantity").x
    ensures Prop(UpdatedItem(item, quantity), "profit").Num?
    ensures Prop(UpdatedItem(item, quantity), "profit").x
      == (if Prop(item, "profit").Num? then Prop(item, "profit").x else 0.0) + SaleProfit(item, quantity).x
    ensures quantity.x > Prop(item, "quantity").x ==> Prop(UpdatedItem(item, quantity), "quantity").x < 0.0
  {
  }

  /** GET lists every sale when a bound is missing, and otherwise exactly the sales in range, in sheet order. */
  lemma ListedSpec(rows: seq<Row>, start: Value, end: Value, time: Value -> Option<int>)
    ensures !Truthy(start) || !Truthy(end) ==> Listed(rows, start, end, time) == SalesOf(rows)
    ensures IsSubsequence(Listed(rows, start, end, time), SalesOf(rows))
    ensures forall s :: s in Listed(rows, start, end, time) <==> s in SalesOf(rows) && InRange(s, start, end, time)
  {
    FilterIsSubsequence(SalesOf(rows), s => InRange(s, start, end, time));
    if !Truthy(start) || !Truthy(end) {
      FilterKeepsAll(SalesOf(rows), s => InRange(s, start, end, time));
    }
  }

  /** Appending a row adds its sale at the end of the list, unless the sheet was empty: then it is the header. */
  lemma SalesOfAppend(rows: seq<Row>, row: Row)
    ensures rows == [] ==> SalesOf(rows + [row]) == []
    ensures rows != [] ==> SalesOf(rows + [row]) == SalesOf(rows) + [DecodeSale(row)]
  {
    if rows != [] {
      var a := SalesOf(rows + [row]);
      var b := SalesOf(rows) + [DecodeSale(row)];
      assert |a| == |b|;
      forall i | 0 <= i < |a| ensures a[i] == b[i] {
        assert (rows + [row])[i + 1] == if i + 1 < |rows| then rows[i + 1] else row;
      }
    }
  }

  /**
   * A recorded sale reads back with the sale id, the item's id and name, and, for
   * numeric values with an integer quantity, the quantity, total and profit it was
   * recorded with.
   */
  lemma RecordedSaleReadsBack(saleId: string, item: Obj, quantity: Value, date: Value)
    requires !Skipped(Prop(item, "id")) && !Skipped(Prop(item, "name")) && !Skipped(date)
    requires Prop(item, "price").Num? && Prop(item, "costPrice").Num? && quantity.Num? && IsInteger(quantity.x)
    ensures DecodeSale(WriteCells([], SaleRow(saleId, item, quantity, date)))
      == SaleRecord(Str(saleId), Prop(item, "id"), Prop(item, "name"), quantity,
           SaleTotal(item, quantity), SaleProfit(item, quantity), date)
  {
    var row := WriteCells([], SaleRow(saleId, item, quantity, date));
    SaleAmounts(item, quantity);
    TruncateKeeps(quantity.x);
    assert Cell(row, 3) == quantity;
    assert Cell(row, 4) == SaleTotal(item, quantity);
    assert Cell(row, 5) == SaleProfit(item, quantity);
  }
}
