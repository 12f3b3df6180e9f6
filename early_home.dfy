/**
 * The earlier copy of the inventory page: the same item list and handlers, without the
 * confirmation and alert dialogs. Failures are only logged, and an oversell is refused
 * with a browser alert, which is not modelled beyond the refusal.
 */
module EarlyHome {
  import opened Js
  import opened Inventory

  class EarlyHomePage {
    var items: seq<Item>
    var isModalOpen: bool
    var searchTerm: string
    var loading: bool

    /** The initial state: no items, loading, the add dialog closed. */
    constructor()
      ensures items == [] && !isModalOpen && searchTerm == "" && loading
    {
      items := [];
      isModalOpen := false;
      searchTerm := "";
      loading := true;
    }

    /** The statistics panel, recomputed whenever the items change. */
    function Stats(): Stats
      reads this
    {
      CalculateStats(items)
    }

    /** The list shown: the items matching the search term. */
    function Visible(): seq<Item>
      reads this
    {
      FilteredItems(items, searchTerm)
    }

    /** `loadInventory`: the fetched items replace the list; a failed fetch keeps it. */
    method LoadInventory(data: Option<seq<Item>>)
      modifies this`items, this`loading
      ensures !loading
      ensures data.Some? ==> items == data.value
      ensures data.None? ==> items == old(items)
    {
      loading := true;
      if data.Some? {
        items := data.value;
      }
      loading := false;
    }

    /** `handleAddItem`: the saved item is appended and the dialog closes; a failed save changes nothing. */
    method AddItem(newItem: Item, saved: Option<Item>) returns (request: Item)
      modifies this`items, this`isModalOpen
      ensures request == AddRequest(newItem)
      ensures saved.Some? ==> items == old(items) + [saved.value] && !isModalOpen
      ensures saved.None? ==> items == old(items) && isModalOpen == old(isModalOpen)
    {
      request := AddRequest(newItem);
      if saved.Some? {
        items := items + [saved.value];
        isModalOpen := false;
      }
    }

    /** `handleUpdateItem`: after a successful store update, every item with that id is replaced. */
    method UpdateItem(updated: Item, ok: bool)
      modifies this`items
      ensures ok ==> items == ReplaceById(old(items), updated)
      ensures !ok ==> items == old(items)
    {
      if ok {
        items := ReplaceById(items, updated);
      }
    }

    /** `handleSellItem`: an oversell is refused (`sent` is `None`); otherwise the sold item is updated. */
    method SellItem(item: Item, quantitySold: int, ok: bool) returns (sent: Option<Item>)
      modifies this`items
      ensures quantitySold > item.quantity ==> sent.None? && items == old(items)
      ensures quantitySold <= item.quantity ==> sent == Some(Sold(item, quantitySold))
      ensures quantitySold <= item.quantity && ok ==> items == ReplaceById(old(items), Sold(item, quantitySold))
      ensures !ok ==> items == old(items)
    {
      if quantitySold > item.quantity {
        return None;
      }
      var updated := Sold(item, quantitySold);
      UpdateItem(updated, ok);
      sent := Some(updated);
    }

    /** `handleDeleteItem`: the items with that id are removed once the store call succeeds. */
    method DeleteItem(itemId: string, ok: bool)
      modifies this`items
      ensures ok ==> items == RemoveById(old(items), itemId)
      ensures !ok ==> items == old(items)
    {
      if ok {
        items := RemoveById(items, itemId);
      }
    }

    /** The search bar's `setSearchTerm`. */
    method SetSearchTerm(term: string)
      modifies this`searchTerm
      ensures searchTerm == term
    {
      searchTerm := term;
    }
  }
}
