/** What the report of the aggregation pass (src/pages/Dashboard.jsx:215-369) means:
    properties of `ReportOf`, which `Aggregation.Aggregate` is proved to compute. */
module ReportFacts {
  import opened Fallback
  import opened Sums
  import opened Sorting
  import opened Grouping
  import opened Orders
  import opened PeriodFilter
  import opened Aggregation

  // ---------------------------------------------------------------- summary

  /** No order in the window: every figure is zero and every list is empty. */
  lemma EmptyInputIsZero(allCount: nat, st: FilterState)
    ensures ReportOf([], allCount, st) == EmptyReport()
  {
  }

  /** The average times the number of orders gives the income back; with no orders
      it is 0. */
  lemma AverageMeaning(income: int, count: nat)
    ensures count == 0 ==> AverageOrderValue(income, count) == 0.0
    ensures count > 0 ==> AverageOrderValue(income, count) * (count as real) == income as real
  {
    if count > 0 {
      var c := count as real;
      var a := income as real / c;
      assert a * c == income as real;
    }
  }

  /** Under an explicit range the growth rate is 0; otherwise it is the window's order
      count as a percentage of the fetched orders outside it, or of 1 when none are
      outside. */
  lemma GrowthMeaning(count: nat, allCount: nat, rangeActive: bool)
    ensures rangeActive ==> GrowthRate(count, allCount, rangeActive) == 0.0
    ensures !rangeActive && allCount != count ==>
      GrowthRate(count, allCount, rangeActive) * ((allCount - count) as real) == (count * 100) as real
    ensures !rangeActive && allCount == count ==> GrowthRate(count, allCount, rangeActive) == (count * 100) as real
  {
    if !rangeActive && allCount != count {
      var d := (allCount - count) as real;
      var q := count as real / d;
      assert q * d == count as real;
      assert (q * 100.0) * d == (q * d) * 100.0;
    }
  }

  /** The summary counts the orders and adds up their totals and service amounts; the
      average and the growth rate are derived from the count. */
  lemma SummaryMeaning(orders: seq<Order>, allCount: nat, st: FilterState)
    ensures var s := ReportOf(orders, allCount, st).stats;
      && s.totalOrders == |orders|
      && s.totalIncome == Sum(orders, Total)
      && s.totalServiceAmount == Sum(orders, Service)
      && s.averageOrderValue == AverageOrderValue(Sum(orders, Total), |orders|)
      && s.growthRate == GrowthRate(|orders|, allCount, RangeActive(st))
  {
  }

  // ---------------------------------------------------------------- payments

  /** An order paid by cash, card or click puts its whole total into that one bucket. */
  lemma SingleMethodSettles(o: Order)
    requires SingleMethod(o)
    ensures CashPart(o) + CardPart(o) + ClickPart(o) == Total(o)
    ensures o.paymentMethod == Some("cash") ==> CardPart(o) == 0 && ClickPart(o) == 0
    ensures o.paymentMethod == Some("card") ==> CashPart(o) == 0 && ClickPart(o) == 0
    ensures o.paymentMethod == Some("click") ==> CashPart(o) == 0 && CardPart(o) == 0
  {
  }

  /** Only an order paid by click reaches the click bucket: a mixed payment splits into
      cash and card alone, and an order with neither method nor split reaches none. */
  lemma ClickOnlyFromClick(o: Order)
    ensures o.paymentMethod != Some("click") ==> ClickPart(o) == 0
    ensures !SingleMethod(o) && o.mixedPaymentDetails.None? ==> CashPart(o) == 0 && CardPart(o) == 0
  {
  }

  /** When every order is paid by one of the three methods, the buckets add up to the
      income. */
  lemma {:induction false} BucketsCoverIncome(orders: seq<Order>)
    requires forall o :: o in orders ==> SingleMethod(o)
    ensures Sum(orders, CashPart) + Sum(orders, CardPart) + Sum(orders, ClickPart) == Sum(orders, Total)
    decreases |orders|
  {
    if orders != [] {
      var s := orders[..|orders| - 1];
      var o := orders[|orders| - 1];
      assert orders == s + [o];
      assert forall x :: x in s ==> x in orders;
      BucketsCoverIncome(s);
      SumSnoc(s, o, CashPart);
      SumSnoc(s, o, CardPart);
      SumSnoc(s, o, ClickPart);
      SumSnoc(s, o, Total);
      SingleMethodSettles(o);
    }
  }

  lemma ReportBucketsCoverIncome(orders: seq<Order>, allCount: nat, st: FilterState)
    requires forall o :: o in orders ==> SingleMethod(o)
    ensures var s := ReportOf(orders, allCount, st).stats;
      s.totalCash + s.totalCard + s.totalClick == s.totalIncome
  {
    BucketsCoverIncome(orders);
  }

  // ---------------------------------------------------------------- waiters

  /** The waiter list added up by one field equals the groups added up by the matching
      measure, for any dictionary whose entries give that field. */
  lemma {:induction false} StatsForSum(orders: seq<Order>, m: map<string, WaiterTally>, names: seq<string>, ts: int,
                                       f: WaiterStat -> int, g: Order -> int)
    requires forall w :: w in names ==> w in m && f(WaiterStatOf(w, m[w], ts)) == Sum(Group(orders, WaiterKey, w), g)
    ensures Sum(StatsFor(m, names, ts), f) == SumOverKeys(names, orders, WaiterKey, g)
    decreases |names|
  {
    if names != [] {
      var n := |names| - 1;
      var front := StatsFor(m, names[..n], ts);
      var ws := WaiterStatOf(names[n], m[names[n]], ts);
      StatsForSum(orders, m, names[..n], ts, f, g);
      assert StatsFor(m, names, ts) == front + [ws];
      SumSnoc(front, ws, f);
    }
  }

  /** The per-waiter order counts add up to the number of orders with a waiter name, and
      the sales and commissions to those orders' totals and service amounts. */
  lemma WaiterTotalsAddUp(orders: seq<Order>, allCount: nat, st: FilterState)
    ensures var r := ReportOf(orders, allCount, st);
      && Sum(r.waiterStats, WaiterOrders) == |Keyed(orders, WaiterKey)|
      && Sum(r.waiterStats, WaiterSales) == Sum(Keyed(orders, WaiterKey), Total)
      && Sum(r.waiterStats, Commission) == Sum(Keyed(orders, WaiterKey), Service)
  {
    var S := Sum(orders, Service);
    WaiterMapIsTally(orders);
    var list := WaiterList(orders, S);
    SortDescSum(list, Commission, WaiterOrders);
    SortDescSum(list, Commission, WaiterSales);
    SortDescSum(list, Commission, Commission);
    var m, ks := WaiterMap(orders), Keys(orders, WaiterKey);
    forall w | w in ks ensures Sum(Group(orders, WaiterKey, w), One) == TallyOf(orders, w).orders {
      CountIsSumOfOnes(Group(orders, WaiterKey, w));
    }
    StatsForSum(orders, m, ks, S, WaiterOrders, One);
    StatsForSum(orders, m, ks, S, WaiterSales, Total);
    StatsForSum(orders, m, ks, S, Commission, Service);
    PartitionSum(orders, WaiterKey, One);
    PartitionSum(orders, WaiterKey, Total);
    PartitionSum(orders, WaiterKey, Service);
    CountIsSumOfOnes(Keyed(orders, WaiterKey));
  }

  /** Sorting keeps exactly the elements it was given. */
  lemma SortDescMembers<T>(s: seq<T>, key: T -> int)
    ensures forall x :: x in SortDesc(s, key) <==> x in s
  {
    var r := SortDesc(s, key);
    forall x ensures x in r <==> x in s {
      assert x in r <==> x in multiset(r);
      assert x in s <==> x in multiset(s);
    }
  }

  /** The `i`th entry of the unsorted waiter list is the tally of the `i`th waiter
      name, which has at least one order. */
  lemma WaiterAt(orders: seq<Order>, i: nat)
    requires i < |Keys(orders, WaiterKey)|
    ensures var w := Keys(orders, WaiterKey)[i];
      && Group(orders, WaiterKey, w) != []
      && i < |WaiterList(orders, Sum(orders, Service))|
      && WaiterList(orders, Sum(orders, Service))[i] == WaiterStatOf(w, TallyOf(orders, w), Sum(orders, Service))
  {
    var w := Keys(orders, WaiterKey)[i];
    WaiterMapKeys(orders);
    WaiterMapEntry(orders, w);
    KeysAreGroups(orders, WaiterKey);
  }

  /** Every waiter with at least one order is listed with their tally over all their
      orders. */
  lemma WaiterListed(orders: seq<Order>, w: string)
    requires Group(orders, WaiterKey, w) != []
    ensures WaiterStatOf(w, TallyOf(orders, w), Sum(orders, Service)) in WaiterReport(orders)
  {
    var ks := Keys(orders, WaiterKey);
    KeysAreGroups(orders, WaiterKey);
    var i :| 0 <= i < |ks| && ks[i] == w;
    WaiterAt(orders, i);
    SortDescMembers(WaiterList(orders, Sum(orders, Service)), Commission);
  }

  /** Every listed entry belongs to a waiter with a non-empty name and at least one
      order, and is that waiter's tally over all their orders. */
  lemma ListedWaiter(orders: seq<Order>, ws: WaiterStat)
    requires ws in WaiterReport(orders)
    ensures ws.name != "" && Group(orders, WaiterKey, ws.name) != []
    ensures ws == WaiterStatOf(ws.name, TallyOf(orders, ws.name), Sum(orders, Service))
  {
    var list := WaiterList(orders, Sum(orders, Service));
    SortDescMembers(list, Commission);
    var i :| 0 <= i < |list| && list[i] == ws;
    WaiterAt(orders, i);
    GroupOfAbsentKey(orders, WaiterKey, "");
  }

  /** The report lists exactly one entry per waiter name that occurs, sorted by
      commission, highest first; each entry is that waiter's tally. */
  lemma WaiterEntries(orders: seq<Order>)
    ensures var r := WaiterReport(orders);
      var S := Sum(orders, Service);
      && SortedDesc(r, Commission)
      && |r| == |Keys(orders, WaiterKey)|
      && (forall w :: Group(orders, WaiterKey, w) != [] ==> WaiterStatOf(w, TallyOf(orders, w), S) in r)
      && (forall ws :: ws in r ==>
            && ws.name != ""
            && Group(orders, WaiterKey, ws.name) != []
            && ws == WaiterStatOf(ws.name, TallyOf(orders, ws.name), S))
  {
    SortDescSorted(WaiterList(orders, Sum(orders, Service)), Commission);
    forall w | Group(orders, WaiterKey, w) != []
      ensures WaiterStatOf(w, TallyOf(orders, w), Sum(orders, Service)) in WaiterReport(orders)
    {
      WaiterListed(orders, w);
    }
    forall ws | ws in WaiterReport(orders)
      ensures ws.name != "" && Group(orders, WaiterKey, ws.name) != []
      ensures ws == WaiterStatOf(ws.name, TallyOf(orders, ws.name), Sum(orders, Service))
    {
      ListedWaiter(orders, ws);
    }
  }

  /** A waiter's share of the service amount, in percent. */
  lemma ServiceShareMeaning(c: int, t: int)
    ensures t <= 0 ==> ServiceShare(c, t) == 0.0
    ensures t > 0 ==> ServiceShare(c, t) * (t as real) == (c * 100) as real
    ensures t > 0 && 0 <= c <= t ==> 0.0 <= ServiceShare(c, t) <= 100.0
  {
  }

  /** With no service amount every percentage is 0; with non-negative service amounts
      every percentage lies between 0 and 100. */
  lemma ServicePercentages(orders: seq<Order>, allCount: nat, st: FilterState)
    ensures var r := ReportOf(orders, allCount, st);
      r.stats.totalServiceAmount <= 0 ==> forall ws :: ws in r.waiterStats ==> ws.servicePercentage == 0.0
    ensures var r := ReportOf(orders, allCount, st);
      (forall o :: o in orders ==> Service(o) >= 0) ==>
        forall ws :: ws in r.waiterStats ==> 0.0 <= ws.servicePercentage <= 100.0
  {
    var r := ReportOf(orders, allCount, st);
    var S := Sum(orders, Service);
    WaiterEntries(orders);
    forall ws | ws in r.waiterStats
      ensures S <= 0 ==> ws.servicePercentage == 0.0
      ensures (forall o :: o in orders ==> Service(o) >= 0) ==> 0.0 <= ws.servicePercentage <= 100.0
    {
      var t := TallyOf(orders, ws.name);
      ServiceShareMeaning(t.monthlyCommission, S);
      if forall o :: o in orders ==> Service(o) >= 0 {
        GroupSumAtMost(orders, WaiterKey, ws.name, Service);
      }
    }
  }

  // ---------------------------------------------------------------- sold items

  /** One row per line item of every order. */
  lemma {:induction false} OneRowPerLineItem(orders: seq<Order>)
    ensures |SoldRows(orders)| == Sum(orders, LineCount)
    decreases |orders|
  {
    if orders != [] {
      var s := orders[..|orders| - 1];
      var o := orders[|orders| - 1];
      assert orders == s + [o];
      OneRowPerLineItem(s);
      SumSnoc(s, o, LineCount);
    }
  }

  /** Each row of one order has a non-zero quantity and a subtotal of price times
      quantity. */
  lemma {:induction false} ItemRowsArithmetic(o: Order, items: seq<LineItem>)
    ensures forall r :: r in ItemRows(o, items) ==> r.quantity != 0 && r.subtotal == r.price * r.quantity
    decreases |items|
  {
    if items != [] {
      var it := items[|items| - 1];
      ItemRowsArithmetic(o, items[..|items| - 1]);
      QuantityNeverZero(it);
    }
  }

  /** Every sold-item row counts at least one piece (a missing or 0 quantity reads as
      1) and its subtotal is its price times its quantity. */
  lemma {:induction false} RowArithmetic(orders: seq<Order>)
    ensures forall r :: r in SoldRows(orders) ==> r.quantity != 0 && r.subtotal == r.price * r.quantity
    decreases |orders|
  {
    if orders != [] {
      var o := orders[|orders| - 1];
      RowArithmetic(orders[..|orders| - 1]);
      ItemRowsArithmetic(o, OrderItems(o));
    }
  }

  /** The sold items of the report are the rows of all orders, newest first; rows with
      the same date keep the order in which they were collected. */
  lemma SoldItemsNewestFirst(orders: seq<Order>, allCount: nat, st: FilterState)
    ensures var items := ReportOf(orders, allCount, st).allSoldItems;
      && SortedDesc(items, RowDate)
      && multiset(items) == multiset(SoldRows(orders))
      && |items| == Sum(orders, LineCount)
      && forall t :: WithKey(items, RowDate, t) == WithKey(SoldRows(orders), RowDate, t)
  {
    var rows := SoldRows(orders);
    SortDescSorted(rows, RowDate);
    OneRowPerLineItem(orders);
    forall t ensures WithKey(SortDesc(rows, RowDate), RowDate, t) == WithKey(rows, RowDate, t) {
      SortDescStable(rows, RowDate, t);
    }
  }

  // ---------------------------------------------------------------- dishes

  function Revenue(d: DishStat): int { d.revenue }

  /** Every row counts towards exactly one dish: the dishes' sold counts add up to the
      rows' quantities and their revenues to the rows' subtotals. */
  lemma DishTotalsAddUp(rows: seq<SoldItem>)
    ensures Sum(DishList(rows), Sold) == Sum(rows, RowQuantity)
    ensures Sum(DishList(rows), Revenue) == Sum(rows, RowSubtotal)
  {
    DishMapIsGroup(rows);
    ValuesSum(DishMap(rows), Keys(rows, DishKey), rows, DishKey, Sold, RowQuantity);
    ValuesSum(DishMap(rows), Keys(rows, DishKey), rows, DishKey, Revenue, RowSubtotal);
    PartitionSum(rows, DishKey, RowQuantity);
    PartitionSum(rows, DishKey, RowSubtotal);
    KeyedEverything(rows, DishKey);
  }

  /** The `i`th dish is the summary of the rows of the `i`th item name, and its name
      reads as that item name. */
  lemma DishAt(rows: seq<SoldItem>, i: nat)
    requires i < |Keys(rows, DishKey)|
    ensures var k := Keys(rows, DishKey)[i];
      && i < |DishList(rows)| && Group(rows, DishKey, k) != []
      && DishList(rows)[i] == DishOf(rows, k)
      && KeyText(DishList(rows)[i].name) == k
  {
    var k := Keys(rows, DishKey)[i];
    DishMapKeys(rows);
    DishMapEntry(rows, k);
    var g := Group(rows, DishKey, k);
    GroupMembers(rows, DishKey, k);
    assert g[0] in g;
  }

  /** One dish per distinct item name (a missing name counting as "undefined"), in
      first-sold order, and every sold item name has its dish; each dish's units sold
      and revenue are the sums over the rows of its name, and its name and category
      those of the first such row. */
  lemma DishEntries(rows: seq<SoldItem>)
    ensures |DishList(rows)| == |Keys(rows, DishKey)|
    ensures forall i :: 0 <= i < |DishList(rows)| ==>
      Group(rows, DishKey, Keys(rows, DishKey)[i]) != [] && DishList(rows)[i] == DishOf(rows, Keys(rows, DishKey)[i])
    ensures forall r :: r in rows ==> exists d :: d in DishList(rows) && KeyText(d.name) == KeyText(r.itemName)
    ensures forall d :: d in DishList(rows) ==>
      var g := Group(rows, DishKey, KeyText(d.name));
      && g != []
      && (forall r :: r in g <==> r in rows && KeyText(r.itemName) == KeyText(d.name))
      && d.sold == Sum(g, RowQuantity) && d.revenue == Sum(g, RowSubtotal)
      && d.name == g[0].itemName && d.category == g[0].category
  {
    var list := DishList(rows);
    var ks := Keys(rows, DishKey);
    DishMapKeys(rows);
    forall i | 0 <= i < |list| ensures Group(rows, DishKey, ks[i]) != [] && list[i] == DishOf(rows, ks[i]) {
      DishAt(rows, i);
    }
    forall r | r in rows ensures exists d :: d in list && KeyText(d.name) == KeyText(r.itemName) {
      KeyListed(rows, DishKey, r);
      var i :| 0 <= i < |ks| && ks[i] == KeyText(r.itemName);
      DishAt(rows, i);
      assert list[i] in list;
    }
    forall d | d in list
      ensures var g := Group(rows, DishKey, KeyText(d.name));
        && g != []
        && (forall r :: r in g <==> r in rows && KeyText(r.itemName) == KeyText(d.name))
        && d.sold == Sum(g, RowQuantity) && d.revenue == Sum(g, RowSubtotal)
        && d.name == g[0].itemName && d.category == g[0].category
    {
      var i :| 0 <= i < |list| && list[i] == d;
      DishAt(rows, i);
      GroupMembers(rows, DishKey, ks[i]);
    }
  }

  /** The first row of a dish name decides the dish's name and category; later rows of
      the same name with another category only add to its counts. */
  lemma FirstSeenCategoryWins(rows: seq<SoldItem>, i: nat)
    requires i < |rows|
    requires forall j :: 0 <= j < i ==> KeyText(rows[j].itemName) != KeyText(rows[i].itemName)
    ensures var k := KeyText(rows[i].itemName);
      && k in DishMap(rows)
      && DishMap(rows)[k].name == rows[i].itemName
      && DishMap(rows)[k].category == rows[i].category
  {
    var k := KeyText(rows[i].itemName);
    GroupHeadIsFirst(rows, DishKey, k, i);
    DishMapEntry(rows, k);
  }

  /** In a sequence sorted by descending key, nothing after a cut has a larger key
      than anything before it. */
  lemma {:induction false} SortedCut<T>(s: seq<T>, key: T -> int, n: nat)
    requires SortedDesc(s, key) && n <= |s|
    ensures forall d, e :: d in multiset(s[n..]) && e in s[..n] ==> key(d) <= key(e)
  {
    forall d, e | d in multiset(s[n..]) && e in s[..n] ensures key(d) <= key(e) {
      var j :| 0 <= j < |s[n..]| && s[n..][j] == d;
      var i :| 0 <= i < n && s[..n][i] == e;
      assert s[n + j] == d && s[i] == e;
    }
  }

  /** The popular dishes are the ten best sellers (all dishes when there are at most
      ten), sorted by units sold: no dish left out sold more than a listed one. */
  lemma TopTenIsTop(ds: seq<DishStat>)
    ensures var top := TopTen(ds);
      && |top| == (if |ds| <= 10 then |ds| else 10)
      && SortedDesc(top, Sold)
      && multiset(top) <= multiset(ds)
      && (forall d, e :: d in multiset(ds) - multiset(top) && e in top ==> Sold(d) <= Sold(e))
  {
    var sorted := SortDesc(ds, Sold);
    SortDescSorted(ds, Sold);
    var n := if |sorted| <= 10 then |sorted| else 10;
    assert sorted == sorted[..n] + sorted[n..];
    assert TopTen(ds) == sorted[..n];
    SortedCut(sorted, Sold, n);
  }

  /** The report's popular dishes: at most ten dishes, sorted by units sold, taken
      from the dish list, with no dish left out having sold more than a listed one. */
  lemma PopularDishesAreTop(orders: seq<Order>, allCount: nat, st: FilterState)
    ensures var top := ReportOf(orders, allCount, st).popularDishes;
      var ds := DishList(SoldRows(orders));
      && |top| == (if |ds| <= 10 then |ds| else 10)
      && SortedDesc(top, Sold)
      && multiset(top) <= multiset(ds)
      && (forall d, e :: d in multiset(ds) - multiset(top) && e in top ==> Sold(d) <= Sold(e))
  {
    TopTenIsTop(DishList(SoldRows(orders)));
  }
}
