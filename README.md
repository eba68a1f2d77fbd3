# Ordering system: order and stock bookkeeping

A model of the order and stock bookkeeping in `app.py`, a small ordering application. The application keeps three tables:

- the **catalog**: the `items` table, with rows `(id, name, price, stock_quantity)`;
- the **order in progress**: the session's list of `{item_name, quantity, price}` lines;
- the **ledger**: the `order_details` table, with rows `(order_id, item_name, quantity, price)`.

The user actions change these tables:

- "Add New Item" inserts a catalog row.
- "Add to Order" appends a line after a stock check.
- "Submit Order" writes one ledger row per line and, for each line, lowers the stock of every catalog row with that name.
- "New Order" empties the order.

The order summary shows the running total and a warning on every line whose quantity exceeds its item's current stock.

`Tables.dfy` (module `Tables`) holds the rows as datatypes and the table operations as functions over sequences. It also holds the lemmas about them: totals, per-name stock decrement, ledger rows and lookups. `OrderingSystem.dfy` (module `OrderingSystem`) holds the class `Session`. Its three `seq` fields are updated in place by one method per user action. `SubmitOrder` keeps the source's loop over the lines and is proved against the functions `AfterSubmit` and `LedgerRows`. `WidgetScenario` is a verified worked order: adding 3 and then 4 Widgets at 2.50 brings the total to 17.50, a line of 11 is refused, and submitting leaves a stock of 3.

Behaviour of the code that the model keeps:

- Nothing in `app.py` forces item names to be unique. Lookups take the first row with the name. The stock `UPDATE` lowers the stock of every row with the name.
- The guard in "Add to Order" compares one line's quantity with the catalog stock. It ignores what the order already holds for that item.
- `submit_order` has no all-or-nothing stock check, or any stock check, so stock can go below zero (`OversellScenario`).
- The summary warning is per line and does not add up lines for the same item.
- "Submit Order" does not clear the order in progress. Submitting twice records the order twice and lowers the stock twice (`AfterSubmitConcat`).
- `get_stock_quantity` crashes when no row has the name. The model makes this a precondition.

The store is taken to hand rows back in ascending id order, as a scan of a table keyed by its rowid does. So the first row with a name is also the one with the lowest id.

Prices and totals are exact integers in cents.

## Model

| member | source | states |
|---|---|---|
| `Tables.FirstIndex` | app.py:103-105 | finds the first row with the name, or reports that no row has it (both directions) |
| `Tables.Lookup` | app.py:103-106 | the selected item is the first catalog row with that name; there is none exactly when no row has the name |
| `Tables.StockOf` | app.py:51-57 | `get_stock_quantity` returns the stock of the first row with the name; a name no row has is excluded |
| `Tables.NextId` | app.py:37 | the id the store gives an inserted row is above every existing id, and is 1 in an empty table |
| `Tables.Total` | app.py:129 | the order total: the sum of quantity × price over the lines, 0 for an empty order |
| `Tables.TotalNonNegative` | app.py:129 | the total is not negative when no line has a negative quantity or price |
| `Tables.TotalConcat` | app.py:129 | the order total of two concatenated line lists is the sum of their totals |
| `Tables.TotalAppend` | app.py:129 | appending a line raises the total by exactly quantity × price of that line |
| `Tables.TotalWithout` | app.py:129 | taking one line out of an order lowers the total by that line's amount |
| `Tables.TotalPermutation` | app.py:129 | the total is the same however the lines are ordered |
| `Tables.DecrementStock` | app.py:83-84 | the stock UPDATE lowers the stock of every row with the name by the quantity and leaves every other row and field as it was |
| `Tables.AfterSubmit` | app.py:78-84 | after submission every catalog row keeps its id, name and price, and the row count is unchanged; each row's stock is its old stock minus the summed quantity of all lines with its name, with no lower bound |
| `Tables.UnorderedRowUnchanged` | app.py:78-84 | a row whose name matches no line is left exactly as it was |
| `Tables.AfterSubmitAppend` | app.py:78-84 | one more line in the loop is one more per-name UPDATE of the catalog |
| `Tables.AfterSubmitConcat` | app.py:78-84 | submitting two orders one after the other lowers stock as if they were submitted as one |
| `Tables.AfterSubmitKeepsNames` | app.py:83-84 | submission neither adds nor removes a name in the catalog |
| `Tables.LedgerRows` | app.py:78-80 | the ledger rows of an order: one per line, in line order, all under the one order id, each copying its line's name, quantity and price |
| `Tables.LedgerRowsRoundTrip` | app.py:78-80 | the order's lines can be read back unchanged from its ledger rows |
| `Tables.OversellScenario` | app.py:83-84 | two lines of 6 against a stock of 10 each pass the guard and draw no warning, and submitting them leaves a stock of -2 |
| `Tables.WarnedAgainstFirstRow` | app.py:135 | a line is flagged exactly when its own quantity exceeds the stock of the first row with its name; later rows with that name play no part |
| `Tables.Warnings` | app.py:131-136 | one flag per line, in line order, each the per-line test above; lines are not added up per item |
| `Tables.WidgetScenario` | app.py:103-129 | one Widget at 2.50 with stock 10: lines of 3 and 4 pass the guard, 11 does not, the totals are 7.50 and 17.50, and submitting leaves a stock of 3 |
| `OrderingSystem.Session.constructor` | app.py:96-98 | a session starts with the stored tables, whose rows are in ascending id order, and an empty order |
| `OrderingSystem.Session.AddNewItem` | app.py:34-39 | exactly one row with the given name, price and stock and a fresh id is appended; existing rows are unchanged and ids stay ascending |
| `OrderingSystem.Session.GetItems` | app.py:42-48 | returns the whole catalog in table order |
| `OrderingSystem.Session.GetStockQuantity` | app.py:51-57 | returns the stock of the first row with the name |
| `OrderingSystem.Session.AddToOrder` | app.py:103-124 | refusal exactly when the quantity exceeds the first matching row's stock, and then the order is unchanged; otherwise exactly one line with that row's name and price is appended and the total rises by quantity × price; with no matching row nothing happens |
| `OrderingSystem.Session.SubmitOrder` | app.py:60-87 | the ledger gains exactly the order's rows under the one order id, after the old rows; the catalog becomes `AfterSubmit` of the old catalog; the order list is kept |
| `OrderingSystem.Session.OrderSummary` | app.py:126-138 | the total is the sum over the lines; the flags are `Warnings` of the current catalog and order; needs every line's name in the catalog, as `get_stock_quantity` does |
| `OrderingSystem.Session.NewOrder` | app.py:146-150 | the order becomes empty; catalog and ledger are untouched |

## Left out

- Streamlit rendering, widgets, reruns and the sidebar are left out. Each button press is a method call, and each input is a parameter.
- The sqlite connection, cursor, commit, close and `CREATE TABLE IF NOT EXISTS` are left out. The tables are sequences of rows. The schema of `items` is not part of `app.py`. The model takes `id` to be an integer primary key that the store assigns as one more than the largest id (`NextId`).
- `send_email_alert` is left out. It is network I/O with fixed credentials, and nothing calls it.
- The order id is taken as a parameter of `SubmitOrder`, because `submit_order` builds it from the clock. So the model does not capture that two submissions in the same microsecond would share an id.
- Floating-point prices and the two-decimal formatting are left out. Prices are exact integer cents.
- OrderingSystem.Session.AddToOrder: requires a quantity of at least 1. The quantity input's minimum guarantees this, and the source does not check it again.
- OrderingSystem.Session.AddNewItem: accepts any price and stock, as `add_new_item` does. The input minimums of 0.01 and 0 in the sidebar are not modelled.
- A crash in the middle of a submission is not modelled, so neither is the partial commit it could leave. The model's methods run to completion.
