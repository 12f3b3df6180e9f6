/**
 * The state of the inventory page: the item list, the search term, the add, delete
 * and alert dialogs, and the handlers that change them. Each call into the inventory
 * service is replaced by its outcome, passed in as a parameter (`None` or `false`
 * when the call rejects).
 */
module Home {
  import opened Js
  import opened Inventory

  const ErrorTitle: string := "Error"

  class HomePage {
    var items: seq<Item>
    var isModalOpen: bool
    var searchTerm: string
    var loading: bool
    var deleteModalOpen: bool
    /** The id awaiting confirmation, `null` when there is none. */
    var itemToDelete: Option<string>
    var alertOpen: bool
    var alertTitle: string
    var alertMessage: string

    /** The initial state: no items, loading, every dialog closed. */
    constructor()
      ensures items == [] && searchTerm == "" && loading
      ensures !isModalOpen && !deleteModalOpen && itemToDelete.None? && !alertOpen
      ensures alertTitle == "" && alertMessage == ""
    {
      items := [];
      isModalOpen := false;
      searchTerm := "";
      loading := true;
      deleteModalOpen := false;
      itemToDelete := None;
      alertOpen := false;
      alertTitle := "";
      alertMessage := "";
    }

    /** The statistics panel, recomputed whenever the items change. */
    function Stats(): Stats
      reads this
    {
      CalculateStats(items)
    }

    /** The list shown: the items matching the search term. */
    function Visible(): seq<Item>
      reads this
    {
      FilteredItems(items, searchTerm)
    }

    /** `showAlert`. */
    method ShowAlert(title: string, message: string)
      modifies this`alertOpen, this`alertTitle, this`alertMessage
      ensures alertOpen && alertTitle == title && alertMessage == message
    {
      alertTitle := title;
      alertMessage := message;
      alertOpen := true;
    }

    /** `loadInventory`: the fetched items replace the list; a failed fetch shows an alert instead. */
    method LoadInventory(data: Option<seq<Item>>)
      modifies this`items, this`loading, this`alertOpen, this`alertTitle, this`alertMessage
      ensures !loading
      ensures data.Some? ==> items == data.value && unchanged(this`alertOpen, this`alertTitle, this`alertMessage)
      ensures data.None? ==> (items == old(items) && alertOpen && alertTitle == ErrorTitle
          && alertMessage == "Failed to load inventory. Please refresh the page.")
    {
      loading := true;
      match data {
        case Some(d) => items := d;
        case None => ShowAlert(ErrorTitle, "Failed to load inventory. Please refresh the page.");
      }
      loading := false;
    }

    /**
     * `handleAddItem`: sends the new item with its threshold defaulted and no profit; the
     * saved item the service answers with is appended and the dialog closes. A failed save
     * leaves the list and the dialog as they were and shows an alert.
     */
    method AddItem(newItem: Item, saved: Option<Item>) returns (request: Item)
      modifies this`items, this`isModalOpen, this`alertOpen, this`alertTitle, this`alertMessage
      ensures request == AddRequest(newItem)
      ensures saved.Some? ==> (items == old(items) + [saved.value] && !isModalOpen
          && unchanged(this`alertOpen, this`alertTitle, this`alertMessage))
      ensures saved.None? ==> (items == old(items) && isModalOpen == old(isModalOpen)
          && alertOpen && alertTitle == ErrorTitle && alertMessage == "Failed to add item. Please try again.")
    {
      request := AddRequest(newItem);
      match saved {
        case Some(s) =>
          items := items + [s];
          isModalOpen := false;
        case None =>
          ShowAlert(ErrorTitle, "Failed to add item. Please try again.");
      }
    }

    /** `handleUpdateItem`: after a successful store update, every item with that id is replaced. */
    method UpdateItem(updated: Item, ok: bool)
      modifies this`items, this`alertOpen, this`alertTitle, this`alertMessage
      ensures ok ==> items == ReplaceById(old(items), updated) && unchanged(this`alertOpen, this`alertTitle, this`alertMessage)
      ensures !ok ==> (items == old(items) && alertOpen && alertTitle == ErrorTitle
          && alertMessage == "Failed to update item. Please try again.")
    {
      if ok {
        items := ReplaceById(items, updated);
      } else {
        ShowAlert(ErrorTitle, "Failed to update item. Please try again.");
      }
    }

    /**
     * `handleSellItem`: refuses to sell more than the item's quantity; otherwise updates the
     * item with the quantity lowered and the profit raised. `sent` is the item sent to the
     * store, if any.
     */
    method SellItem(item: Item, quantitySold: int, ok: bool) returns (sent: Option<Item>)
      modifies this`items, this`alertOpen, this`alertTitle, this`alertMessage
      ensures quantitySold > item.quantity ==> (sent.None? && items == old(items)
          && alertOpen && alertTitle == "Invalid Operation" && alertMessage == "Cannot sell more than available quantity")
      ensures quantitySold <= item.quantity ==> sent == Some(Sold(item, quantitySold))
      ensures quantitySold <= item.quantity && ok ==> (items == ReplaceById(old(items), Sold(item, quantitySold))
          && unchanged(this`alertOpen, this`alertTitle, this`alertMessage))
      ensures quantitySold <= item.quantity && !ok ==> (items == old(items) && alertOpen && alertTitle == ErrorTitle
          && alertMessage == "Failed to update item. Please try again.")
    {
      if quantitySold > item.quantity {
        ShowAlert("Invalid Operation", "Cannot sell more than available quantity");
        return None;
      }
      var updated := Sold(item, quantitySold);
      UpdateItem(updated, ok);
      sent := Some(updated);
    }

    /** `confirmDelete`: remembers the id and opens the confirmation dialog. */
    method ConfirmDelete(itemId: string)
      modifies this`itemToDelete, this`deleteModalOpen
      ensures itemToDelete == Some(itemId) && deleteModalOpen
    {
      itemToDelete := Some(itemId);
      deleteModalOpen := true;
    }

    /**
     * `executeDelete`: with no pending id (or an empty one) nothing happens and the store is not
     * called; otherwise the items with that id are removed only once the store call succeeds.
     */
    method ExecuteDelete(ok: bool) returns (called: bool)
      modifies this`items, this`deleteModalOpen, this`itemToDelete, this`alertOpen, this`alertTitle, this`alertMessage
      ensures called <==> old(itemToDelete).Some? && old(itemToDelete).value != ""
      ensures !called ==> (unchanged(this`items, this`deleteModalOpen, this`itemToDelete)
          && unchanged(this`alertOpen, this`alertTitle, this`alertMessage))
      ensures called && ok ==> (items == RemoveById(old(items), old(itemToDelete).value)
          && !deleteModalOpen && itemToDelete.None? && unchanged(this`alertOpen, this`alertTitle, this`alertMessage))
      ensures called && !ok ==> (items == old(items) && !deleteModalOpen && itemToDelete == old(itemToDelete)
          && alertOpen && alertTitle == ErrorTitle && alertMessage == "Failed to delete item. Please try again.")
    {
      if itemToDelete.None? || itemToDelete.value == "" {
        return false;
      }
      called := true;
      var id := itemToDelete.value;
      if ok {
        items := RemoveById(items, id);
        deleteModalOpen := false;
        itemToDelete := None;
      } else {
        deleteModalOpen := false;
        ShowAlert(ErrorTitle, "Failed to delete item. Please try again.");
      }
    }

    /** The search bar's `setSearchTerm`. */
    method SetSearchTerm(term: string)
      modifies this`searchTerm
      ensures searchTerm == term
    {
      searchTerm := term;
    }
  }
}
