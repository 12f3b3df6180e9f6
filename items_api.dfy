/**
 * The `/api/items` handler over the header-keyed sheet: GET lists the items, POST saves
 * an item that has a name. `failure` stands for the spreadsheet client rejecting before
 * it changes anything; every thrown error becomes a 500.
 */
module ItemsApi {
  import opened Js
  import opened Http
  import opened Table
  import KeyedSheet

  /** The JSON bodies the handler answers with. */
  datatype Body = ItemList(items: seq<Obj>) | One(item: Obj) | Message(text: string) | Failure(error: Thrown)

  /** What a request asks of the sheet, or the answer it gets without one. */
  datatype Action = ReadAll | Create(item: Obj) | Refuse(status: int, message: string)

  /** The method dispatch and the name check of the handler. */
  function Route(m: Method, body: Obj): (a: Action)
    ensures m.Get? <==> a.ReadAll?
    ensures a.Create? <==> m.Post? && Truthy(Prop(body, "name"))
    ensures a.Create? ==> a.item == body
    ensures m.Post? && !Truthy(Prop(body, "name")) ==> a == Refuse(BadRequest, "Item name is required")
    ensures !m.Get? && !m.Post? ==> a == Refuse(MethodNotAllowed, NotAllowedMessage)
  {
    match m
    case Get => ReadAll
    case Post => if Truthy(Prop(body, "name")) then Create(body) else Refuse(BadRequest, "Item name is required")
    case _ => Refuse(MethodNotAllowed, NotAllowedMessage)
  }

  /** `handler(req, res)` for the request `m`, `body`. */
  method Handle(sheet: KeyedSheet.Sheet, m: Method, body: Obj, uuid: string, failure: Option<string>)
    returns (res: Response<Body>)
    modifies sheet
    ensures var a := Route(m, body);
      && (a.Refuse? ==> res == Response(a.status, Message(a.message)) && sheet.rows == old(sheet.rows))
      && (!a.Refuse? && failure.Some? ==>
           res == Response(ServerError, Failure(ServiceFailure(failure.value))) && sheet.rows == old(sheet.rows))
      && (a.ReadAll? && failure.None? ==>
           res == Response(OK, ItemList(KeyedSheet.ItemsOf(old(sheet.rows)))) && sheet.rows == old(sheet.rows))
      && (a.Create? && failure.None? && KeyedSheet.SaveHeaders(old(sheet.rows)) == [] ==>
           res.status == ServerError && res.body.Failure? && res.body.error.TypeError? && sheet.rows == old(sheet.rows))
      && (a.Create? && failure.None? && KeyedSheet.SaveHeaders(old(sheet.rows)) != [] ==>
           var saved := KeyedSheet.WithId(a.item, uuid);
           && res == Response(Created, One(saved))
           && sheet.rows == old(sheet.rows) + [WriteCells([], KeyedSheet.SavedRow(KeyedSheet.SaveHeaders(old(sheet.rows)), saved))])
  {
    var a := Route(m, body);
    if a.Refuse? {
      return Response(a.status, Message(a.message));
    }
    if failure.Some? {
      return Response(ServerError, Failure(ServiceFailure(failure.value)));
    }
    if a.ReadAll? {
      var items := sheet.GetAllItems();
      return Response(OK, ItemList(items));
    }
    var r := sheet.SaveItem(a.item, uuid);
    match r {
      case Err(e) => res := Response(ServerError, Failure(e));
      case Ok(saved) => res := Response(Created, One(saved));
    }
  }
}
