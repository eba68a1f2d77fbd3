/** Rows of the ordering system's two tables and of the order in progress,
    with the table operations behind the SQL statements of app.py read as
    plain operations on sequences of rows. Prices are exact integer cents. */
module Tables {

  datatype Option<T> = None | Some(value: T)

  /** A row of the `items` table: (id, name, price, stock_quantity). */
  datatype Item = Item(id: int, name: string, price: int, stock: int)

  /** A line of the order in progress: {item_name, quantity, price}. */
  datatype OrderLine = OrderLine(itemName: string, quantity: int, price: int)

  /** A row of the `order_details` table: (order_id, item_name, quantity, price). */
  datatype LedgerRow = LedgerRow(orderId: string, itemName: string, quantity: int, price: int)

  // ---------------------------------------------------------------------------
  // Catalog lookups (names are not unique: lookups take the first match)
  // ---------------------------------------------------------------------------

  /** Some row of the catalog carries `name`. */
  predicate HasItem(rows: seq<Item>, name: string) {
    exists i :: 0 <= i < |rows| && rows[i].name == name
  }

  /** Row `i` is the first row of the catalog that carries `name`. */
  predicate FirstMatchAt(rows: seq<Item>, name: string, i: int) {
    0 <= i < |rows| && rows[i].name == name &&
    forall j :: 0 <= j < i ==> rows[j].name != name
  }

  /** Position of the first row named `name`, scanning in table order. */
  function FirstIndex(rows: seq<Item>, name: string): (r: Option<nat>)
    ensures r.Some? ==> FirstMatchAt(rows, name, r.value)
    ensures r.None? <==> !HasItem(rows, name)
  {
    if |rows| == 0 then None
    else if rows[0].name == name then Some(0)
    else match FirstIndex(rows[1..], name)
      case None => None
      case Some(k) => Some(k + 1)
  }

  /** The first row named `name`, if any (`selected_item[0]` in the order page). */
  function Lookup(rows: seq<Item>, name: string): (r: Option<Item>)
    ensures r.Some? <==> HasItem(rows, name)
    ensures r.Some? ==> r.value.name == name
    ensures forall i :: FirstMatchAt(rows, name, i) ==> r == Some(rows[i])
  {
    match FirstIndex(rows, name)
    case None => None
    case Some(k) => Some(rows[k])
  }

  /** `get_stock_quantity`: the stock of the first row named `name`; the source
      fails on a name no row carries, so that is excluded. */
  function StockOf(rows: seq<Item>, name: string): (s: int)
    requires HasItem(rows, name)
    ensures exists i :: FirstMatchAt(rows, name, i) && s == rows[i].stock
    ensures forall i :: FirstMatchAt(rows, name, i) ==> s == rows[i].stock
  {
    Lookup(rows, name).value.stock
  }

  /** Largest id in the catalog (0 for an empty catalog). */
  function MaxId(rows: seq<Item>): (m: int)
    ensures forall i :: 0 <= i < |rows| ==> rows[i].id <= m
    ensures |rows| > 0 ==> exists i :: 0 <= i < |rows| && rows[i].id == m
  {
    if |rows| == 0 then 0
    else var rest := MaxId(rows[1..]);
      if |rows| == 1 || rows[0].id >= rest then rows[0].id else rest
  }

  /** Id the store gives the next inserted row: one more than the largest id,
      and 1 in an empty table. */
  function NextId(rows: seq<Item>): (id: int)
    ensures forall i :: 0 <= i < |rows| ==> rows[i].id < id
    ensures |rows| == 0 ==> id == 1
  {
    if |rows| == 0 then 1 else MaxId(rows) + 1
  }

  /** Rows are stored in ascending id order, so no two share an id and a scan
      of the table in rowid order meets them in sequence order. */
  predicate IdsAscending(rows: seq<Item>) {
    forall i, j :: 0 <= i < j < |rows| ==> rows[i].id < rows[j].id
  }

  // ---------------------------------------------------------------------------
  // Order total
  // ---------------------------------------------------------------------------

  /** What one line costs: quantity times the price captured with the line. */
  function Amount(line: OrderLine): int {
    line.quantity * line.price
  }

  /** The running total of the order summary (app.py:129): quantity times
      price, added up over every line of the order; an empty order costs 0. */
  function Total(lines: seq<OrderLine>): (r: int)
    ensures |lines| == 0 ==> r == 0
  {
    if |lines| == 0 then 0 else Amount(lines[0]) + Total(lines[1..])
  }

  /** With no negative quantity or price among the lines, the total is not negative. */
  lemma {:induction false} TotalNonNegative(lines: seq<OrderLine>)
    requires forall k :: 0 <= k < |lines| ==> lines[k].quantity >= 0 && lines[k].price >= 0
    ensures Total(lines) >= 0
  {
    if |lines| > 0 {
      TotalNonNegative(lines[1..]);
    }
  }

  /** The total of two orders laid end to end is the sum of their totals. */
  lemma {:induction false} TotalConcat(a: seq<OrderLine>, b: seq<OrderLine>)
    ensures Total(a + b) == Total(a) + Total(b)
  {
    if |a| == 0 {
      assert a + b == b;
    } else {
      assert (a + b)[1..] == a[1..] + b;
      TotalConcat(a[1..], b);
    }
  }

  /** Appending a line raises the total by exactly that line's amount. */
  lemma {:induction false} TotalAppend(lines: seq<OrderLine>, line: OrderLine)
    ensures Total(lines + [line]) == Total(lines) + Amount(line)
  {
    TotalConcat(lines, [line]);
    assert Total([line]) == Amount(line) + Total([]);
  }

  /** Taking line `i` out of an order lowers the total by that line's amount. */
  lemma {:induction false} TotalWithout(b: seq<OrderLine>, i: int)
    requires 0 <= i < |b|
    ensures Total(b) == Amount(b[i]) + Total(b[..i] + b[i + 1..])
  {
    if i == 0 {
      assert b[..0] + b[1..] == b[1..];
    } else {
      var tail := b[1..];
      TotalWithout(tail, i - 1);
      var rest := tail[..i - 1] + tail[i..];
      assert b[..i] + b[i + 1..] == [b[0]] + rest;
      assert ([b[0]] + rest)[1..] == rest;
    }
  }

  /** In a permutation of a non-empty order, some position holds the first
      line, and removing it leaves a permutation of the remaining lines. */
  lemma MatchFirst(a: seq<OrderLine>, b: seq<OrderLine>) returns (i: int)
    requires |a| > 0 && multiset(a) == multiset(b)
    ensures 0 <= i < |b| && b[i] == a[0]
    ensures multiset(a[1..]) == multiset(b[..i] + b[i + 1..])
  {
    assert a[0] in multiset(a);
    i :| 0 <= i < |b| && b[i] == a[0];
    assert a == [a[0]] + a[1..];
    assert b == b[..i] + [b[i]] + b[i + 1..];
    assert multiset(b[..i] + b[i + 1..]) == multiset(b) - multiset{b[i]};
    assert multiset(a[1..]) == multiset(a) - multiset{a[0]};
  }

  /** The total does not depend on the order in which the lines are listed. */
  lemma {:induction false} TotalPermutation(a: seq<OrderLine>, b: seq<OrderLine>)
    requires multiset(a) == multiset(b)
    ensures Total(a) == Total(b)
    decreases |a|
  {
    if |a| == 0 {
      assert |b| == |multiset(b)| == 0;
    } else {
      var i := MatchFirst(a, b);
      TotalPermutation(a[1..], b[..i] + b[i + 1..]);
      TotalWithout(b, i);
    }
  }

  // ---------------------------------------------------------------------------
  // Submitting an order
  // ---------------------------------------------------------------------------

  /** Summed quantity of the lines of `lines` that name `name`. */
  function QuantityFor(lines: seq<OrderLine>, name: string): int {
    if |lines| == 0 then 0
    else (if lines[0].itemName == name then lines[0].quantity else 0) + QuantityFor(lines[1..], name)
  }

  /** Quantities ordered for a name add up over two parts of an order. */
  lemma {:induction false} QuantityForConcat(a: seq<OrderLine>, b: seq<OrderLine>, name: string)
    ensures QuantityFor(a + b, name) == QuantityFor(a, name) + QuantityFor(b, name)
  {
    if |a| == 0 {
      assert a + b == b;
    } else {
      assert (a + b)[1..] == a[1..] + b;
      QuantityForConcat(a[1..], b, name);
    }
  }

  /** A name that no line carries has nothing ordered. */
  lemma {:induction false} QuantityForAbsent(lines: seq<OrderLine>, name: string)
    requires forall k :: 0 <= k < |lines| ==> lines[k].itemName != name
    ensures QuantityFor(lines, name) == 0
  {
    if |lines| > 0 {
      QuantityForAbsent(lines[1..], name);
    }
  }

  /** The stock update of app.py:83: every row carrying the name loses `q`
      from its stock, and the other rows are untouched. */
  function DecrementStock(rows: seq<Item>, name: string, q: int): (r: seq<Item>)
    ensures |r| == |rows|
    ensures forall i :: 0 <= i < |rows| && rows[i].name != name ==> r[i] == rows[i]
    ensures forall i :: 0 <= i < |rows| && rows[i].name == name ==>
              r[i] == Item(rows[i].id, name, rows[i].price, rows[i].stock - q)
  {
    seq(|rows|, i requires 0 <= i < |rows| =>
      if rows[i].name == name then rows[i].(stock := rows[i].stock - q) else rows[i])
  }

  /** The catalog after an order is submitted: every row keeps its id, name
      and price and loses the summed quantity ordered under its name. Nothing
      keeps the stock from going below zero. */
  function AfterSubmit(rows: seq<Item>, lines: seq<OrderLine>): (r: seq<Item>)
    ensures |r| == |rows|
    ensures forall i :: 0 <= i < |rows| ==>
              r[i].id == rows[i].id && r[i].name == rows[i].name && r[i].price == rows[i].price
    ensures forall i :: 0 <= i < |rows| ==>
              r[i].stock == rows[i].stock - QuantityFor(lines, rows[i].name)
  {
    seq(|rows|, i requires 0 <= i < |rows| =>
      rows[i].(stock := rows[i].stock - QuantityFor(lines, rows[i].name)))
  }

  /** Rows whose name matches no line of the order are left exactly as they were. */
  lemma UnorderedRowUnchanged(rows: seq<Item>, lines: seq<OrderLine>, i: int)
    requires 0 <= i < |rows|
    requires forall k :: 0 <= k < |lines| ==> lines[k].itemName != rows[i].name
    ensures AfterSubmit(rows, lines)[i] == rows[i]
  {
    QuantityForAbsent(lines, rows[i].name);
  }

  /** Submitting two orders one after the other has the effect on stock of
      submitting them as one. */
  lemma AfterSubmitConcat(rows: seq<Item>, a: seq<OrderLine>, b: seq<OrderLine>)
    ensures AfterSubmit(AfterSubmit(rows, a), b) == AfterSubmit(rows, a + b)
  {
    var left, right := AfterSubmit(AfterSubmit(rows, a), b), AfterSubmit(rows, a + b);
    forall i | 0 <= i < |rows| ensures left[i] == right[i] {
      QuantityForConcat(a, b, rows[i].name);
    }
  }

  /** Submitting one more line is one more per-name UPDATE of the catalog. */
  lemma AfterSubmitAppend(rows: seq<Item>, lines: seq<OrderLine>, line: OrderLine)
    ensures AfterSubmit(rows, lines + [line])
         == DecrementStock(AfterSubmit(rows, lines), line.itemName, line.quantity)
  {
    AfterSubmitConcat(rows, lines, [line]);
    var mid := AfterSubmit(rows, lines);
    var left, right := AfterSubmit(mid, [line]), DecrementStock(mid, line.itemName, line.quantity);
    forall i | 0 <= i < |mid| ensures left[i] == right[i] {
      assert QuantityFor([line], mid[i].name)
          == (if line.itemName == mid[i].name then line.quantity else 0) + QuantityFor([], mid[i].name);
    }
  }

  /** Submitting leaves the set of names in the catalog as it was. */
  lemma AfterSubmitKeepsNames(rows: seq<Item>, lines: seq<OrderLine>, name: string)
    ensures HasItem(AfterSubmit(rows, lines), name) <==> HasItem(rows, name)
  {
    var r := AfterSubmit(rows, lines);
    if HasItem(rows, name) {
      var i :| 0 <= i < |rows| && rows[i].name == name;
      assert r[i].name == name;
    }
    if HasItem(r, name) {
      var i :| 0 <= i < |r| && r[i].name == name;
      assert rows[i].name == name;
    }
  }

  /** The ledger rows an order is recorded as: one per line, in line order,
      all under the one order id, each copying its line's name, quantity and price. */
  function LedgerRows(orderId: string, lines: seq<OrderLine>): (r: seq<LedgerRow>)
    ensures |r| == |lines|
    ensures forall i :: 0 <= i < |lines| ==> r[i].orderId == orderId
    ensures forall i :: 0 <= i < |lines| ==>
              r[i].itemName == lines[i].itemName && r[i].quantity == lines[i].quantity &&
              r[i].price == lines[i].price
  {
    seq(|lines|, i requires 0 <= i < |lines| =>
      LedgerRow(orderId, lines[i].itemName, lines[i].quantity, lines[i].price))
  }

  /** The order a ledger records, read back from its rows. */
  function LinesOf(rows: seq<LedgerRow>): seq<OrderLine> {
    seq(|rows|, i requires 0 <= i < |rows| =>
      OrderLine(rows[i].itemName, rows[i].quantity, rows[i].price))
  }

  /** Recording an order loses nothing: the lines can be read back from the rows. */
  lemma LedgerRowsRoundTrip(orderId: string, lines: seq<OrderLine>)
    ensures LinesOf(LedgerRows(orderId, lines)) == lines
  {
  }

  // ---------------------------------------------------------------------------
  // Order summary
  // ---------------------------------------------------------------------------

  /** The summary's warning for one line: its own quantity exceeds the current
      stock of the first row carrying its name. */
  predicate Warned(rows: seq<Item>, line: OrderLine)
    requires HasItem(rows, line.itemName)
  {
    line.quantity > StockOf(rows, line.itemName)
  }

  /** The summary's warnings, one per line, in line order. */
  function Warnings(rows: seq<Item>, lines: seq<OrderLine>): (w: seq<bool>)
    requires forall k :: 0 <= k < |lines| ==> HasItem(rows, lines[k].itemName)
    ensures |w| == |lines|
    ensures forall k :: 0 <= k < |lines| ==> w[k] == Warned(rows, lines[k])
  {
    seq(|lines|, k requires 0 <= k < |lines| => Warned(rows, lines[k]))
  }

  /** A line is flagged exactly when its quantity exceeds the stock of the
      first catalog row carrying its name; later rows with that name play no part. */
  lemma WarnedAgainstFirstRow(rows: seq<Item>, line: OrderLine, i: int)
    requires FirstMatchAt(rows, line.itemName, i)
    ensures HasItem(rows, line.itemName)
    ensures Warned(rows, line) <==> line.quantity > rows[i].stock
  {
  }

  /** An order can pass every check of the application and still drive the
      stock below zero: two lines of 6 against a stock of 10 each pass the
      add-to-order guard, neither draws a summary warning, and submitting
      leaves a stock of -2. */
  lemma OversellScenario()
    ensures var rows := [Item(1, "Widget", 250, 10)];
            var lines := [OrderLine("Widget", 6, 250), OrderLine("Widget", 6, 250)];
            HasItem(rows, "Widget") &&
            !Warned(rows, lines[0]) && !Warned(rows, lines[1]) &&
            QuantityFor(lines, "Widget") > StockOf(rows, "Widget") &&
            AfterSubmit(rows, lines)[0].stock == -2
  {
    var rows := [Item(1, "Widget", 250, 10)];
    var lines := [OrderLine("Widget", 6, 250), OrderLine("Widget", 6, 250)];
    assert FirstMatchAt(rows, "Widget", 0);
    assert lines[1..][1..] == [];
    assert QuantityFor(lines, "Widget") == 12;
  }

  /** A worked order: one "Widget" at 2.50 with 10 in stock. Lines of 3 and
      then 4 each pass the add-to-order guard and bring the total to 7.50 and
      then 17.50, a line of 11 is refused, and submitting the two lines leaves
      a stock of 3. */
  lemma WidgetScenario()
    ensures var rows := [Item(1, "Widget", 250, 10)];
            var three, four := OrderLine("Widget", 3, 250), OrderLine("Widget", 4, 250);
            HasItem(rows, "Widget") &&
            !(3 > StockOf(rows, "Widget")) && !(4 > StockOf(rows, "Widget")) &&
            11 > StockOf(rows, "Widget") &&
            Total([three]) == 750 && Total([three, four]) == 1750 &&
            AfterSubmit(rows, [three, four])[0].stock == 3
  {
    var rows := [Item(1, "Widget", 250, 10)];
    var lines := [OrderLine("Widget", 3, 250), OrderLine("Widget", 4, 250)];
    assert FirstMatchAt(rows, "Widget", 0);
    assert lines[1..] == [lines[1]] && lines[1..][1..] == [];
    assert [lines[0]][1..] == [];
    assert QuantityFor(lines, "Widget") == 7;
  }
}
