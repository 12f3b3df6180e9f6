/**
 * The `/api/inventory` handler over the fixed-column sheet: a pure choice of what to do
 * for the request, then one call into the sheet. `failure` stands for the spreadsheet
 * client rejecting before it changes anything; every thrown error becomes a 500.
 */
module InventoryApi {
  import opened Js
  import opened Http
  import opened Table
  import FixedSheet

  /** The JSON bodies the handler answers with. */
  datatype Body =
    | ItemList(items: seq<Obj>)
    | One(item: Obj)
    | Message(text: string)
    | Removed(message: string, id: Value)
    | Failure(error: Thrown)

  /** What a request asks of the sheet, or the answer it gets without one. */
  datatype Action = ReadAll | Create(item: Obj) | Replace(item: Obj) | Remove(id: Value) | Refuse(status: int, message: string)

  /** `{ ...req.body, id: req.body.id || uuidv4() }`. */
  function NewItemOf(body: Obj, uuid: string): (r: Obj)
    ensures Prop(r, "id") == (if Truthy(Prop(body, "id")) then Prop(body, "id") else Str(uuid))
    ensures forall k :: k != Str("id") ==> Lookup(r, k) == Lookup(body, k)
    ensures r.Keys == body.Keys + {Str("id")}
  {
    body[Str("id") := Or(Prop(body, "id"), Str(uuid))]
  }

  /** The method dispatch and the DELETE check of the handler. */
  function Route(m: Method, body: Obj, query: Obj, uuid: string): (a: Action)
    ensures m.Get? <==> a.ReadAll?
    ensures m.Post? <==> a.Create?
    ensures m.Put? <==> a.Replace?
    ensures a.Remove? <==> m.Delete? && Truthy(Prop(query, "id"))
    ensures a.Create? ==> a.item == NewItemOf(body, uuid)
    ensures a.Replace? ==> a.item == body
    ensures a.Remove? ==> a.id == Prop(query, "id")
    ensures m.Delete? && !Truthy(Prop(query, "id")) ==> a == Refuse(BadRequest, "Item ID is required")
    ensures m.OtherMethod? ==> a == Refuse(MethodNotAllowed, NotAllowedMessage)
  {
    match m
    case Get => ReadAll
    case Post => Create(NewItemOf(body, uuid))
    case Put => Replace(body)
    case Delete => if Truthy(Prop(query, "id")) then Remove(Prop(query, "id")) else Refuse(BadRequest, "Item ID is required")
    case OtherMethod(_) => Refuse(MethodNotAllowed, NotAllowedMessage)
  }

  /** A POST always stores the item under a truthy id, given a non-empty fresh uuid. */
  lemma PostHasId(body: Obj, uuid: string)
    requires uuid != ""
    ensures Truthy(Prop(NewItemOf(body, uuid), "id"))
    ensures Truthy(Prop(body, "id")) ==> Prop(NewItemOf(body, uuid), "id") == Prop(body, "id")
  {
  }

  /** `handler(req, res)` for the request `m`, `body`, `query`. */
  method Handle(sheet: FixedSheet.Sheet, m: Method, body: Obj, query: Obj, uuid: string, failure: Option<string>)
    returns (res: Response<Body>)
    modifies sheet
    ensures var a := Route(m, body, query, uuid);
      && (a.Refuse? ==> res == Response(a.status, Message(a.message)) && sheet.rows == old(sheet.rows))
      && (!a.Refuse? && failure.Some? ==>
           res == Response(ServerError, Failure(ServiceFailure(failure.value))) && sheet.rows == old(sheet.rows))
      && (a.ReadAll? && failure.None? ==>
           if old(sheet.rows) == [] then res == Response(OK, ItemList([])) && sheet.rows == [FixedSheet.HeaderRow()]
           else res == Response(OK, ItemList(FixedSheet.ItemsOf(old(sheet.rows)))) && sheet.rows == old(sheet.rows))
      && (a.Create? && failure.None? ==>
           res == Response(Created, One(a.item)) && sheet.rows == old(sheet.rows) + [WriteCells([], FixedSheet.EncodeRow(a.item))])
      && (a.Replace? && failure.None? ==>
           var k := FindRow(old(sheet.rows), Prop(a.item, "id"), 0);
           && res == Response(OK, One(a.item))
           && (k == -1 ==> sheet.rows == old(sheet.rows) + [WriteCells([], FixedSheet.EncodeRow(a.item))])
           && (k != -1 ==> sheet.rows == old(sheet.rows)[k := WriteCells(old(sheet.rows)[k], FixedSheet.EncodeRow(a.item))]))
      && (a.Remove? && failure.None? ==>
           var k := FindRow(old(sheet.rows), a.id, 0);
           && (k == -1 ==> res == Response(ServerError, Failure(NotFound(a.id))) && sheet.rows == old(sheet.rows))
           && (k != -1 ==> (res == Response(OK, Removed("Item deleted successfully", a.id))
                 && sheet.rows == FixedSheet.Cleared(old(sheet.rows), k))))
  {
    var a := Route(m, body, query, uuid);
    if a.Refuse? {
      return Response(a.status, Message(a.message));
    }
    if failure.Some? {
      return Response(ServerError, Failure(ServiceFailure(failure.value)));
    }
    match a {
      case ReadAll =>
        var items := sheet.GetAllItems();
        res := Response(OK, ItemList(items));
      case Create(item) =>
        var saved := sheet.SaveItem(item);
        res := Response(Created, One(saved));
      case Replace(item) =>
        var result := sheet.UpdateItem(item);
        res := Response(OK, One(result));
      case Remove(id) =>
        var r := sheet.DeleteItem(id);
        match r {
          case Err(e) => res := Response(ServerError, Failure(e));
          case Ok(_) => res := Response(OK, Removed("Item deleted successfully", id));
        }
    }
  }
}
