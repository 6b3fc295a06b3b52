/** The aggregation pass of the dashboard (the `useEffect` at
    src/pages/Dashboard.jsx:215-369): one loop over the filtered orders and their line
    items that accumulates income, payment buckets and the service amount, fills the
    per-waiter and per-dish dictionaries and the flat list of sold-item rows, and then
    sorts waiters, rows and the top ten dishes. `Aggregate` is that loop; `ReportOf`
    states what it must produce in terms of sums and groups over the orders. */
module Aggregation {
  import opened Fallback
  import opened Sums
  import opened Sorting
  import opened Grouping
  import opened Orders
  import opened PeriodFilter

  // ---------------------------------------------------------------- results

  datatype Summary = Summary(
    totalOrders: nat,
    totalIncome: int,
    totalCash: int,
    totalCard: int,
    totalClick: int,
    totalServiceAmount: int,
    averageOrderValue: real,
    growthRate: real)

  datatype WaiterStat = WaiterStat(
    name: string,
    orders: nat,
    totalSales: int,
    monthlyCommission: int,
    servicePercentage: real)

  datatype DishStat = DishStat(name: Option<string>, category: string, sold: int, revenue: int)

  /** One row per (order, line item) pair. */
  datatype SoldItem = SoldItem(
    orderId: Option<string>,
    orderNumber: Option<int>,
    date: Option<int>,
    itemName: Option<string>,
    category: string,
    quantity: int,
    price: int,
    subtotal: int,
    waiterName: Option<string>,
    tableNumber: Option<int>)

  datatype Report = Report(
    stats: Summary,
    waiterStats: seq<WaiterStat>,
    allSoldItems: seq<SoldItem>,
    popularDishes: seq<DishStat>)

  /** The all-zero state the dashboard shows when no order passes the filter. */
  function EmptyReport(): Report {
    Report(Summary(0, 0, 0, 0, 0, 0, 0.0, 0.0), [], [], [])
  }

  // ---------------------------------------------------------------- per order

  datatype Buckets = Buckets(cash: int, card: int, click: int)

  predicate SingleMethod(o: Order) {
    o.paymentMethod == Some("cash") || o.paymentMethod == Some("card") || o.paymentMethod == Some("click")
  }

  /** Where an order's money goes: its whole total to the bucket its payment method
      names; else a mixed-payment breakdown's cash and card parts; else nowhere. */
  function Settlement(o: Order): Buckets {
    if o.paymentMethod == Some("cash") then Buckets(Total(o), 0, 0)
    else if o.paymentMethod == Some("card") then Buckets(0, Total(o), 0)
    else if o.paymentMethod == Some("click") then Buckets(0, 0, Total(o))
    else if o.mixedPaymentDetails.Some? then
      Buckets(NumberOr(o.mixedPaymentDetails.value.cashAmount, 0),
              NumberOr(o.mixedPaymentDetails.value.cardAmount, 0), 0)
    else Buckets(0, 0, 0)
  }

  function CashPart(o: Order): int { Settlement(o).cash }
  function CardPart(o: Order): int { Settlement(o).card }
  function ClickPart(o: Order): int { Settlement(o).click }

  /** The sold-item row of line item `it` of order `o`. */
  function SoldRow(o: Order, it: LineItem): SoldItem {
    SoldItem(OrderId(o), OrderNumber(o), DateField(o), ItemName(it), Category(it),
             Quantity(it), Price(it), Price(it) * Quantity(it), o.waiterName, o.tableNumber)
  }

  /** The rows of one order, one per line item, in item order. */
  function RowsOf(o: Order): seq<SoldItem> {
    ItemRows(o, OrderItems(o))
  }

  function ItemRows(o: Order, items: seq<LineItem>): (rows: seq<SoldItem>)
    ensures |rows| == |items|
  {
    if items == [] then []
    else ItemRows(o, items[..|items| - 1]) + [SoldRow(o, items[|items| - 1])]
  }

  /** The rows of all orders, order by order. */
  function SoldRows(orders: seq<Order>): seq<SoldItem> {
    if orders == [] then []
    else SoldRows(orders[..|orders| - 1]) + RowsOf(orders[|orders| - 1])
  }

  function LineCount(o: Order): int { |OrderItems(o)| }

  // ---------------------------------------------------------------- waiters

  datatype WaiterTally = WaiterTally(orders: nat, totalSales: int, monthlyCommission: int)

  /** `waiterStatsMap` after the orders `orders`: an order with a truthy waiter name
      creates that waiter's entry on first sight and then adds one order, its total and
      its service amount to it. */
  function WaiterMap(orders: seq<Order>): map<string, WaiterTally> {
    if orders == [] then map[]
    else
      var m := WaiterMap(orders[..|orders| - 1]);
      var o := orders[|orders| - 1];
      match WaiterKey(o)
      case None => m
      case Some(w) =>
        var t := if w in m then m[w] else WaiterTally(0, 0, 0);
        m[w := WaiterTally(t.orders + 1, t.totalSales + Total(o), t.monthlyCommission + Service(o))]
  }

  /** A waiter's tally over `orders`: the number, the total and the service amount of
      the orders credited to them. */
  function TallyOf(orders: seq<Order>, w: string): WaiterTally {
    var g := Group(orders, WaiterKey, w);
    WaiterTally(|g|, Sum(g, Total), Sum(g, Service))
  }

  /** The dictionary built entry by entry has an entry exactly for the waiter names
      that occur, in the order in which they first occur. */
  lemma {:induction false} WaiterMapKeys(orders: seq<Order>)
    ensures forall w :: w in WaiterMap(orders) <==> w in Keys(orders, WaiterKey)
    decreases |orders|
  {
    if orders != [] {
      var s := orders[..|orders| - 1];
      var o := orders[|orders| - 1];
      assert orders == s + [o];
      WaiterMapKeys(s);
      KeysSnoc(s, o, WaiterKey);
    }
  }

  /** An order credited to `w` adds itself to `w`'s entry, creating it if need be. */
  lemma WaiterMapSameStep(s: seq<Order>, o: Order, w: string)
    requires WaiterKey(o) == Some(w)
    requires w in WaiterMap(s) ==> WaiterMap(s)[w] == TallyOf(s, w)
    requires w !in WaiterMap(s) ==> Group(s, WaiterKey, w) == []
    ensures w in WaiterMap(s + [o]) && WaiterMap(s + [o])[w] == TallyOf(s + [o], w)
  {
    assert (s + [o])[..|s|] == s;
    GroupSnoc(s, o, WaiterKey, w);
    var g := Group(s, WaiterKey, w);
    SumSnoc(g, o, Total);
    SumSnoc(g, o, Service);
    var t := if w in WaiterMap(s) then WaiterMap(s)[w] else WaiterTally(0, 0, 0);
    assert t == TallyOf(s, w);
  }

  /** An order credited to someone else, or to no one, leaves `w`'s entry alone. */
  lemma WaiterMapOtherStep(s: seq<Order>, o: Order, w: string)
    requires WaiterKey(o) != Some(w)
    ensures w in WaiterMap(s + [o]) <==> w in WaiterMap(s)
    ensures w in WaiterMap(s) ==> WaiterMap(s + [o])[w] == WaiterMap(s)[w]
    ensures Group(s + [o], WaiterKey, w) == Group(s, WaiterKey, w)
  {
    assert (s + [o])[..|s|] == s;
    GroupSnoc(s, o, WaiterKey, w);
    assert Group(s, WaiterKey, w) + [] == Group(s, WaiterKey, w);
  }

  /** A waiter's entry is their tally over all their orders; a name without an entry
      has no orders. */
  lemma {:induction false} WaiterMapEntry(orders: seq<Order>, w: string)
    ensures w in WaiterMap(orders) ==> WaiterMap(orders)[w] == TallyOf(orders, w)
    ensures w !in WaiterMap(orders) ==> Group(orders, WaiterKey, w) == []
    decreases |orders|
  {
    if orders != [] {
      var s := orders[..|orders| - 1];
      var o := orders[|orders| - 1];
      assert orders == s + [o];
      WaiterMapEntry(s, w);
      if WaiterKey(o) == Some(w) {
        WaiterMapSameStep(s, o, w);
      } else {
        WaiterMapOtherStep(s, o, w);
      }
    }
  }

  lemma WaiterMapIsTally(orders: seq<Order>)
    ensures forall w :: w in WaiterMap(orders) <==> w in Keys(orders, WaiterKey)
    ensures forall w :: w in WaiterMap(orders) ==> WaiterMap(orders)[w] == TallyOf(orders, w)
  {
    WaiterMapKeys(orders);
    forall w | w in WaiterMap(orders) ensures WaiterMap(orders)[w] == TallyOf(orders, w) {
      WaiterMapEntry(orders, w);
    }
  }

  /** A waiter's share of all service amounts, in percent; 0 when the total is not
      positive. */
  function ServiceShare(commission: int, totalService: int): real {
    if totalService > 0 then (commission as real / totalService as real) * 100.0 else 0.0
  }

  function WaiterStatOf(w: string, t: WaiterTally, totalService: int): WaiterStat {
    WaiterStat(w, t.orders, t.totalSales, t.monthlyCommission, ServiceShare(t.monthlyCommission, totalService))
  }

  /** The stats of the waiters `names`, in that order. */
  function StatsFor(tallies: map<string, WaiterTally>, names: seq<string>, totalService: int): (r: seq<WaiterStat>)
    requires forall w :: w in names ==> w in tallies
    ensures |r| == |names|
    ensures forall i :: 0 <= i < |names| ==> r[i] == WaiterStatOf(names[i], tallies[names[i]], totalService)
  {
    if names == [] then []
    else
      var n := |names| - 1;
      StatsFor(tallies, names[..n], totalService) + [WaiterStatOf(names[n], tallies[names[n]], totalService)]
  }

  /** The waiter list of the report before sorting: `Object.values(waiterStatsMap)`. */
  function WaiterList(orders: seq<Order>, totalService: int): seq<WaiterStat> {
    WaiterMapIsTally(orders);
    StatsFor(WaiterMap(orders), Keys(orders, WaiterKey), totalService)
  }

  function Commission(w: WaiterStat): int { w.monthlyCommission }
  function WaiterOrders(w: WaiterStat): int { w.orders }
  function WaiterSales(w: WaiterStat): int { w.totalSales }

  // ---------------------------------------------------------------- dishes

  /** Dishes are keyed by the item name as a dictionary key. */
  function DishKey(r: SoldItem): Option<string> { Some(KeyText(r.itemName)) }

  function RowQuantity(r: SoldItem): int { r.quantity }
  function RowSubtotal(r: SoldItem): int { r.subtotal }

  /** `dishStatsMap` after the rows `rows`: the entry of a row's item name is created on
      first sight with that row's name and category and then gains the row's quantity
      and subtotal. (The pass updates it from the line item; the row carries the same
      values.) */
  function DishMap(rows: seq<SoldItem>): map<string, DishStat> {
    if rows == [] then map[]
    else
      var m := DishMap(rows[..|rows| - 1]);
      var r := rows[|rows| - 1];
      var k := KeyText(r.itemName);
      var d := if k in m then m[k] else DishStat(r.itemName, r.category, 0, 0);
      m[k := d.(sold := d.sold + r.quantity, revenue := d.revenue + r.subtotal)]
  }

  /** A dish's stats: name and category of its first row, summed quantity and revenue. */
  function DishOf(rows: seq<SoldItem>, k: string): DishStat
    requires Group(rows, DishKey, k) != []
  {
    var g := Group(rows, DishKey, k);
    DishStat(g[0].itemName, g[0].category, Sum(g, RowQuantity), Sum(g, RowSubtotal))
  }

  /** The dish dictionary has an entry exactly for the item names that occur, in the
      order in which they first occur. */
  lemma {:induction false} DishMapKeys(rows: seq<SoldItem>)
    ensures forall k :: k in DishMap(rows) <==> k in Keys(rows, DishKey)
    decreases |rows|
  {
    if rows != [] {
      var s := rows[..|rows| - 1];
      var r := rows[|rows| - 1];
      assert rows == s + [r];
      DishMapKeys(s);
      KeysSnoc(s, r, DishKey);
    }
  }

  /** A row of dish `k` adds itself to `k`'s entry, creating it from the row if need
      be. */
  lemma DishMapSameStep(s: seq<SoldItem>, r: SoldItem, k: string)
    requires DishKey(r) == Some(k)
    requires k in DishMap(s) ==> Group(s, DishKey, k) != [] && DishMap(s)[k] == DishOf(s, k)
    requires k !in DishMap(s) ==> Group(s, DishKey, k) == []
    ensures k in DishMap(s + [r]) && Group(s + [r], DishKey, k) != []
    ensures DishMap(s + [r])[k] == DishOf(s + [r], k)
  {
    assert (s + [r])[..|s|] == s;
    GroupSnoc(s, r, DishKey, k);
    var g := Group(s, DishKey, k);
    SumSnoc(g, r, RowQuantity);
    SumSnoc(g, r, RowSubtotal);
    assert (g + [r])[0] == if g == [] then r else g[0];
  }

  /** A row of another dish leaves `k`'s entry alone. */
  lemma DishMapOtherStep(s: seq<SoldItem>, r: SoldItem, k: string)
    requires DishKey(r) != Some(k)
    ensures k in DishMap(s + [r]) <==> k in DishMap(s)
    ensures k in DishMap(s) ==> DishMap(s + [r])[k] == DishMap(s)[k]
    ensures Group(s + [r], DishKey, k) == Group(s, DishKey, k)
  {
    assert (s + [r])[..|s|] == s;
    GroupSnoc(s, r, DishKey, k);
    assert Group(s, DishKey, k) + [] == Group(s, DishKey, k);
  }

  /** A dish's entry takes its name and category from the first row of that name and
      sums quantity and revenue over all its rows; a name without an entry has no rows. */
  lemma {:induction false} DishMapEntry(rows: seq<SoldItem>, k: string)
    ensures k in DishMap(rows) ==> Group(rows, DishKey, k) != [] && DishMap(rows)[k] == DishOf(rows, k)
    ensures k !in DishMap(rows) ==> Group(rows, DishKey, k) == []
    decreases |rows|
  {
    if rows != [] {
      var s := rows[..|rows| - 1];
      var r := rows[|rows| - 1];
      assert rows == s + [r];
      DishMapEntry(s, k);
      if DishKey(r) == Some(k) {
        DishMapSameStep(s, r, k);
      } else {
        DishMapOtherStep(s, r, k);
      }
    }
  }

  lemma DishMapIsGroup(rows: seq<SoldItem>)
    ensures forall k :: k in DishMap(rows) <==> k in Keys(rows, DishKey)
    ensures forall k :: k in DishMap(rows) ==> Group(rows, DishKey, k) != [] && DishMap(rows)[k] == DishOf(rows, k)
  {
    DishMapKeys(rows);
    forall k | k in DishMap(rows) ensures Group(rows, DishKey, k) != [] && DishMap(rows)[k] == DishOf(rows, k) {
      DishMapEntry(rows, k);
    }
  }

  /** The dish list of the report before sorting: `Object.values(dishStatsMap)`. */
  function DishList(rows: seq<SoldItem>): seq<DishStat> {
    DishMapIsGroup(rows);
    Values(DishMap(rows), Keys(rows, DishKey))
  }

  function Sold(d: DishStat): int { d.sold }

  /** `.sort((a, b) => b.sold - a.sold).slice(0, 10)`. */
  function TopTen(dishes: seq<DishStat>): seq<DishStat> {
    var sorted := SortDesc(dishes, Sold);
    if |sorted| <= 10 then sorted else sorted[..10]
  }

  /** The key the rows are sorted by: the row's date; a row without a date is placed as
      if stamped at instant 0. */
  function RowDate(r: SoldItem): int { NumberValue(r.date) }

  // ---------------------------------------------------------------- summary

  /** `totalIncome / totalOrders`, or 0 without orders. */
  function AverageOrderValue(income: int, count: nat): real {
    if count > 0 then income as real / count as real else 0.0
  }

  /** 0 under an explicit range; otherwise the filtered count over the number of
      filtered-out orders, in percent, with a divisor of 1 when none were filtered out. */
  function GrowthRate(count: nat, allCount: nat, rangeActive: bool): real {
    if rangeActive then 0.0
    else
      var d := if allCount - count != 0 then allCount - count else 1;
      (count as real / d as real) * 100.0
  }

  /** What the pass must produce for the filtered orders `orders`, given the number of
      fetched orders `allCount` and the filter state. */
  function ReportOf(orders: seq<Order>, allCount: nat, st: FilterState): Report {
    Report(SummaryOf(orders, allCount, st), WaiterReport(orders), SoldItemsReport(orders), PopularDishes(orders))
  }

  /** The summary: the order count, the sums over the orders, the average and the
      growth rate. */
  function SummaryOf(orders: seq<Order>, allCount: nat, st: FilterState): Summary {
    var income := Sum(orders, Total);
    Summary(|orders|, income, Sum(orders, CashPart), Sum(orders, CardPart), Sum(orders, ClickPart),
            Sum(orders, Service), AverageOrderValue(income, |orders|), GrowthRate(|orders|, allCount, RangeActive(st)))
  }

  /** The waiter list, by commission, highest first. */
  function WaiterReport(orders: seq<Order>): seq<WaiterStat> {
    SortDesc(WaiterList(orders, Sum(orders, Service)), Commission)
  }

  /** The sold-item rows, newest first. */
  function SoldItemsReport(orders: seq<Order>): seq<SoldItem> {
    SortDesc(SoldRows(orders), RowDate)
  }

  /** The ten best-selling dishes. */
  function PopularDishes(orders: seq<Order>): seq<DishStat> {
    TopTen(DishList(SoldRows(orders)))
  }

  // ---------------------------------------------------------------- the pass

  /** The body of the inner `forEach` for one line item: the dish entry of its name is
      created on first sight and then incremented, and its row is appended. */
  method CountLineItem(o: Order, it: LineItem, rows: seq<SoldItem>, dishes: map<string, DishStat>, names: seq<string>)
    returns (rows': seq<SoldItem>, dishes': map<string, DishStat>, names': seq<string>)
    requires dishes == DishMap(rows) && names == Keys(rows, DishKey)
    ensures rows' == rows + [SoldRow(o, it)]
    ensures dishes' == DishMap(rows') && names' == Keys(rows', DishKey)
  {
    var qty := Quantity(it);
    var price := Price(it);
    var itemName := ItemName(it);
    var key := KeyText(itemName);
    dishes', names' := dishes, names;
    DishMapKeys(rows);
    if key !in dishes' {
      dishes' := dishes'[key := DishStat(itemName, Category(it), 0, 0)];
      names' := names' + [key];
    }
    var d := dishes'[key];
    dishes' := dishes'[key := d.(sold := d.sold + qty, revenue := d.revenue + price * qty)];
    var row := SoldRow(o, it);
    rows' := rows + [row];
    KeysSnoc(rows, row, DishKey);
    assert rows'[..|rows|] == rows;
  }

  /** The inner `forEach` over one order's line items. */
  method AddLineItems(o: Order, rows: seq<SoldItem>, dishes: map<string, DishStat>, names: seq<string>)
    returns (rows': seq<SoldItem>, dishes': map<string, DishStat>, names': seq<string>)
    requires dishes == DishMap(rows) && names == Keys(rows, DishKey)
    ensures rows' == rows + RowsOf(o)
    ensures dishes' == DishMap(rows') && names' == Keys(rows', DishKey)
  {
    var lineItems := OrderItems(o);
    rows', dishes', names' := rows, dishes, names;
    var j := 0;
    while j < |lineItems|
      invariant 0 <= j <= |lineItems|
      invariant rows' == rows + ItemRows(o, lineItems[..j])
      invariant dishes' == DishMap(rows') && names' == Keys(rows', DishKey)
    {
      ghost var done := ItemRows(o, lineItems[..j]);
      rows', dishes', names' := CountLineItem(o, lineItems[j], rows', dishes', names');
      assert lineItems[..j + 1][..j] == lineItems[..j];
      assert ItemRows(o, lineItems[..j + 1]) == done + [SoldRow(o, lineItems[j])];
      assert rows' == rows + (done + [SoldRow(o, lineItems[j])]);
      j := j + 1;
    }
    assert lineItems[..j] == lineItems;
  }

  /** The waiter part of the loop body: an order with a truthy waiter name adds one
      order, its total and its service amount to that waiter's entry. */
  method CountWaiter(seen: seq<Order>, o: Order, tallies: map<string, WaiterTally>, names: seq<string>)
    returns (tallies': map<string, WaiterTally>, names': seq<string>)
    requires tallies == WaiterMap(seen) && names == Keys(seen, WaiterKey)
    ensures tallies' == WaiterMap(seen + [o]) && names' == Keys(seen + [o], WaiterKey)
  {
    WaiterMapKeys(seen);
    KeysSnoc(seen, o, WaiterKey);
    assert (seen + [o])[..|seen|] == seen;
    tallies', names' := tallies, names;
    if TruthyText(o.waiterName) {
      var name := o.waiterName.value;
      if name !in tallies' {
        tallies' := tallies'[name := WaiterTally(0, 0, 0)];
        names' := names' + [name];
      }
      var t := tallies'[name];
      tallies' := tallies'[name := WaiterTally(t.orders + 1, t.totalSales + Total(o),
                                               t.monthlyCommission + Service(o))];
    }
  }

  /** `Object.values(waiterStatsMap).forEach(...)`: each waiter's `servicePercentage`. */
  method WaiterValues(tallies: map<string, WaiterTally>, names: seq<string>, totalService: int)
    returns (waiters: seq<WaiterStat>)
    requires forall w :: w in names ==> w in tallies
    ensures waiters == StatsFor(tallies, names, totalService)
  {
    waiters := [];
    var k := 0;
    while k < |names|
      invariant 0 <= k <= |names|
      invariant waiters == StatsFor(tallies, names[..k], totalService)
    {
      var name := names[k];
      var t := tallies[name];
      var share := ServiceShare(t.monthlyCommission, totalService);
      waiters := waiters + [WaiterStat(name, t.orders, t.totalSales, t.monthlyCommission, share)];
      assert names[..k + 1][..k] == names[..k];
      k := k + 1;
    }
    assert names[..k] == names;
  }

  /** The variables the outer `forEach` updates. */
  datatype Accumulators = Accumulators(
    totalIncome: int,
    totalCash: int,
    totalCard: int,
    totalClick: int,
    totalServiceAmount: int,
    waiterStats: map<string, WaiterTally>,
    waiterNames: seq<string>,
    allItems: seq<SoldItem>,
    dishStats: map<string, DishStat>,
    dishNames: seq<string>)

  /** Their values after the orders `seen`: running sums, the two dictionaries with
      their key orders, and the rows. */
  function AccumulatorsOf(seen: seq<Order>): Accumulators {
    var rows := SoldRows(seen);
    Accumulators(Sum(seen, Total), Sum(seen, CashPart), Sum(seen, CardPart), Sum(seen, ClickPart),
                 Sum(seen, Service), WaiterMap(seen), Keys(seen, WaiterKey),
                 rows, DishMap(rows), Keys(rows, DishKey))
  }

  /** The payment-method branch of the outer `forEach`: a single method adds the
      order's total to its bucket, an order with mixed-payment details adds their cash
      and card amounts, and any other order adds nothing. */
  method CountPayment(seen: seq<Order>, o: Order, cash: int, card: int, click: int)
      returns (cash': int, card': int, click': int)
    requires cash == Sum(seen, CashPart) && card == Sum(seen, CardPart) && click == Sum(seen, ClickPart)
    ensures cash' == Sum(seen + [o], CashPart) && card' == Sum(seen + [o], CardPart)
    ensures click' == Sum(seen + [o], ClickPart)
  {
    SumSnoc(seen, o, CashPart);
    SumSnoc(seen, o, CardPart);
    SumSnoc(seen, o, ClickPart);
    var orderTotal := Total(o);
    cash', card', click' := cash, card, click;
    if o.paymentMethod == Some("cash") {
      cash' := cash' + orderTotal;
    } else if o.paymentMethod == Some("card") {
      card' := card' + orderTotal;
    } else if o.paymentMethod == Some("click") {
      click' := click' + orderTotal;
    } else if o.mixedPaymentDetails.Some? {
      cash' := cash' + NumberOr(o.mixedPaymentDetails.value.cashAmount, 0);
      card' := card' + NumberOr(o.mixedPaymentDetails.value.cardAmount, 0);
    }
  }

  /** The body of the outer `forEach` for one order. */
  method CountOrder(seen: seq<Order>, o: Order, acc: Accumulators) returns (acc': Accumulators)
    requires acc == AccumulatorsOf(seen)
    ensures acc' == AccumulatorsOf(seen + [o])
  {
    assert (seen + [o])[..|seen|] == seen;
    SumSnoc(seen, o, Total);
    SumSnoc(seen, o, Service);

    var orderTotal := Total(o);
    var serviceAmount := Service(o);
    var totalIncome := acc.totalIncome + orderTotal;
    var totalServiceAmount := acc.totalServiceAmount + serviceAmount;
    var totalCash, totalCard, totalClick := CountPayment(seen, o, acc.totalCash, acc.totalCard, acc.totalClick);

    var waiterStats, waiterNames := CountWaiter(seen, o, acc.waiterStats, acc.waiterNames);
    var allItems, dishStats, dishNames := AddLineItems(o, acc.allItems, acc.dishStats, acc.dishNames);
    acc' := Accumulators(totalIncome, totalCash, totalCard, totalClick, totalServiceAmount,
                         waiterStats, waiterNames, allItems, dishStats, dishNames);
  }

  /** The aggregation pass. An empty input returns the all-zero report at once. */
  method Aggregate(orders: seq<Order>, allCount: nat, st: FilterState) returns (r: Report)
    ensures r == ReportOf(orders, allCount, st)
  {
    if |orders| == 0 {
      r := EmptyReport();
      return;
    }
    var acc := Accumulators(0, 0, 0, 0, 0, map[], [], [], map[], []);
    var i := 0;
    while i < |orders|
      invariant 0 <= i <= |orders|
      invariant acc == AccumulatorsOf(orders[..i])
    {
      assert orders[..i + 1] == orders[..i] + [orders[i]];
      acc := CountOrder(orders[..i], orders[i], acc);
      i := i + 1;
    }
    assert orders[..i] == orders;

    WaiterMapIsTally(orders);
    var waiters := WaiterValues(acc.waiterStats, acc.waiterNames, acc.totalServiceAmount);
    DishMapIsGroup(acc.allItems);
    var dishes := Values(acc.dishStats, acc.dishNames);

    var totalOrders := |orders|;
    var averageOrderValue := AverageOrderValue(acc.totalIncome, totalOrders);
    var growthRate := GrowthRate(totalOrders, allCount, RangeActive(st));
    r := Report(
      Summary(totalOrders, acc.totalIncome, acc.totalCash, acc.totalCard, acc.totalClick,
              acc.totalServiceAmount, averageOrderValue, growthRate),
      SortDesc(waiters, Commission),
      SortDesc(acc.allItems, RowDate),
      TopTen(dishes));
  }
}
