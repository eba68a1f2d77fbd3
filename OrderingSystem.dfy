/** The ordering application's state and the user actions that change it:
    the `items` table (the catalog), the order in progress kept in the
    session, and the `order_details` table (the ledger). */
module OrderingSystem {
  import opened Tables

  /** What pressing "Add to Order" did. */
  datatype AddOutcome =
    | Added           // the line was appended ("Item added to order!")
    | ExceedsStock    // quantity above the item's stock: error shown, nothing appended
    | NoSuchItem      // no catalog row carries the selected name: no button is offered

  class Session {
    var catalog: seq<Item>
    var order: seq<OrderLine>
    var ledger: seq<LedgerRow>

    /** Catalog rows are in ascending id order; every line of the order in progress names a
        catalog item and asks for at least one unit (the quantity input's minimum). */
    ghost predicate Valid()
      reads this
    {
      IdsAscending(catalog) &&
      forall k :: 0 <= k < |order| ==> order[k].quantity >= 1 && HasItem(catalog, order[k].itemName)
    }

    /** A session opens on the stored tables with an empty order. */
    constructor (items: seq<Item>, details: seq<LedgerRow>)
      requires IdsAscending(items)
      ensures Valid()
      ensures catalog == items && ledger == details && order == []
    {
      catalog := items;
      ledger := details;
      order := [];
    }

    /** `add_new_item`: insert one row; the store gives it a fresh id. */
    method AddNewItem(name: string, price: int, stock: int)
      requires Valid()
      modifies this`catalog
      ensures Valid()
      ensures catalog == old(catalog) + [Item(NextId(old(catalog)), name, price, stock)]
    {
      var row := Item(NextId(catalog), name, price, stock);
      catalog := catalog + [row];
      forall k | 0 <= k < |order| ensures HasItem(catalog, order[k].itemName) {
        assert HasItem(old(catalog), order[k].itemName);
        var i :| 0 <= i < |old(catalog)| && old(catalog)[i].name == order[k].itemName;
        assert catalog[i] == old(catalog)[i];
      }
    }

    /** `get_items`: every row of the catalog, in table order. */
    method GetItems() returns (rows: seq<Item>)
      ensures rows == catalog
    {
      rows := catalog;
    }

    /** `get_stock_quantity`: the stock of the first row carrying `name`. */
    method GetStockQuantity(name: string) returns (s: int)
      requires HasItem(catalog, name)
      ensures exists i :: FirstMatchAt(catalog, name, i) && s == catalog[i].stock
    {
      s := StockOf(catalog, name);
    }

    /** "Add to Order": the first row carrying `name` is selected; a quantity
        above its stock is refused (the source tests this three times over),
        otherwise one line with the row's name and price is appended. */
    method AddToOrder(name: string, quantity: int) returns (outcome: AddOutcome)
      requires Valid()
      requires quantity >= 1
      modifies this`order
      ensures Valid()
      ensures outcome == NoSuchItem <==> !HasItem(catalog, name)
      ensures HasItem(catalog, name) ==>
                (outcome == ExceedsStock <==> quantity > StockOf(catalog, name))
      ensures outcome != Added ==> order == old(order)
      ensures outcome == Added ==>
                exists i :: FirstMatchAt(catalog, name, i) &&
                  order == old(order) + [OrderLine(name, quantity, catalog[i].price)] &&
                  Total(order) == Total(old(order)) + quantity * catalog[i].price
    {
      var selected := Lookup(catalog, name);
      if selected.None? {
        return NoSuchItem;
      }
      var item := selected.value;
      if quantity > item.stock {
        outcome := ExceedsStock;
      } else if quantity > item.stock {
        outcome := ExceedsStock;
      } else if quantity > item.stock {
        outcome := ExceedsStock;
      } else {
        var line := OrderLine(item.name, quantity, item.price);
        TotalAppend(order, line);
        order := order + [line];
        outcome := Added;
      }
    }

    /** "Submit Order" (`submit_order`): for each line in turn, one ledger row
        under `orderId` and one stock decrement of every row with the line's
        name. Stock is not checked and may go below zero; the order in progress
        is kept. */
    method SubmitOrder(orderId: string)
      requires Valid()
      modifies this`catalog, this`ledger
      ensures Valid()
      ensures order == old(order)
      ensures ledger == old(ledger) + LedgerRows(orderId, order)
      ensures catalog == AfterSubmit(old(catalog), order)
    {
      var i := 0;
      while i < |order|
        invariant 0 <= i <= |order|
        invariant ledger == old(ledger) + LedgerRows(orderId, order[..i])
        invariant catalog == AfterSubmit(old(catalog), order[..i])
      {
        var line := order[i];
        ledger := ledger + [LedgerRow(orderId, line.itemName, line.quantity, line.price)];
        AfterSubmitAppend(old(catalog), order[..i], line);
        catalog := DecrementStock(catalog, line.itemName, line.quantity);
        assert order[..i + 1] == order[..i] + [line];
        i := i + 1;
      }
      assert order[..i] == order;
      forall k | 0 <= k < |order| ensures HasItem(catalog, order[k].itemName) {
        AfterSubmitKeepsNames(old(catalog), order, order[k].itemName);
      }
    }

    /** The order summary: the running total and, line by line, whether that
        line's own quantity exceeds the current stock of its item. */
    method OrderSummary() returns (total: int, warnings: seq<bool>)
      requires forall k :: 0 <= k < |order| ==> HasItem(catalog, order[k].itemName)
      ensures total == Total(order)
      ensures warnings == Warnings(catalog, order)
    {
      var rows, lines := catalog, order;
      warnings := [];
      var i := 0;
      while i < |lines|
        invariant 0 <= i <= |lines|
        invariant warnings == Warnings(rows, lines)[..i]
      {
        var stock := StockOf(rows, lines[i].itemName);
        assert warnings + [lines[i].quantity > stock] == Warnings(rows, lines)[..i + 1] by {
          ghost var all := Warnings(rows, lines);
          assert all[i] == (lines[i].quantity > stock);
          assert all[..i + 1] == all[..i] + [all[i]];
        }
        warnings := warnings + [lines[i].quantity > stock];
        i := i + 1;
      }
      total := Total(lines);
    }

    /** "New Order": the order in progress is emptied; the tables are untouched. */
    method NewOrder()
      requires Valid()
      modifies this`order
      ensures Valid()
      ensures order == []
    {
      order := [];
    }
  }
}
