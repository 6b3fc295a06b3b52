/** The views the dashboard derives from the sold-item rows of the report
    (src/pages/Dashboard.jsx:371-424): the rows of one category, the rows grouped into
    products, and the list of categories offered by the category picker. Each view is
    empty (or just "all") when there are no rows. */
module SoldViews {
  import opened Fallback
  import opened Sums
  import opened Sorting
  import opened Grouping
  import opened Aggregation

  /** The picker value that selects every category. */
  const All: string := "all"

  function CategoryKey(r: SoldItem): Option<string> { Some(r.category) }

  // ---------------------------------------------------------------- category filter

  /** `filteredSoldItems`: every row under "all", otherwise the rows whose category is
      exactly the selected one, in their order. */
  function FilterSoldItems(items: seq<SoldItem>, filterCategory: string): seq<SoldItem> {
    if |items| == 0 then []
    else if filterCategory == All then items
    else Group(items, CategoryKey, filterCategory)
  }

  /** Under "all" the rows are unchanged; otherwise the result is the rows read at the
      increasing positions whose category is the selected one, so it keeps their order
      and repeats a row as often as it occurs. */
  lemma FilterSoldItemsMeaning(items: seq<SoldItem>, filterCategory: string)
    ensures filterCategory == All ==> FilterSoldItems(items, filterCategory) == items
    ensures filterCategory != All ==>
      var r, ix := FilterSoldItems(items, filterCategory), Positions(items, CategoryKey, filterCategory);
      && (forall i :: 0 <= i < |items| ==> (i in ix <==> items[i].category == filterCategory))
      && |r| == |ix|
      && (forall j :: 0 <= j < |ix| ==> r[j] == items[ix[j]])
    ensures filterCategory != All ==>
      forall r :: r in FilterSoldItems(items, filterCategory) <==> r in items && r.category == filterCategory
    ensures |FilterSoldItems(items, filterCategory)| <= |items|
  {
    GroupMembers(items, CategoryKey, filterCategory);
    GroupIsSelection(items, CategoryKey, filterCategory);
  }

  // ---------------------------------------------------------------- products

  /** An entry of `aggregatedMap` while rows are being added. */
  datatype ProductAcc = ProductAcc(
    itemName: Option<string>,
    category: string,
    totalQuantity: int,
    totalRevenue: int,
    orderIds: set<Option<string>>)

  /** A row of the products tab. `key` is the display key `${itemName}-${category}`;
      `avgPrice` is `None` where the division by a zero total quantity yields no
      number. */
  datatype ProductRow = ProductRow(
    key: string,
    itemName: Option<string>,
    category: string,
    totalQuantity: int,
    totalRevenue: int,
    avgPrice: Option<real>,
    orderCount: nat)

  /** The key the source groups rows by: the string `${itemName}-${category}`. */
  function SourceKey(r: SoldItem): Option<string> {
    Some(KeyText(r.itemName) + "-" + r.category)
  }

  /** The key the grouping is meant to use: the item name and category themselves. */
  function PairKey(r: SoldItem): Option<(Option<string>, string)> {
    Some((r.itemName, r.category))
  }

  /** `aggregatedMap` after the rows `items`: the entry of a row's key is created on
      first sight with that row's name and category and then gains the row's quantity,
      subtotal and order id. (Both keys above are always present.) */
  function ProductMap<K>(items: seq<SoldItem>, keyOf: SoldItem -> Option<K>): map<K, ProductAcc> {
    if items == [] then map[]
    else
      var m := ProductMap(items[..|items| - 1], keyOf);
      var r := items[|items| - 1];
      match keyOf(r)
      case None => m
      case Some(k) => AddRow(m, k, r)
  }

  /** One step of the `forEach`: the row `r` with key `k` goes into `k`'s entry. */
  function AddRow<K>(m: map<K, ProductAcc>, k: K, r: SoldItem): map<K, ProductAcc> {
    var a := if k in m then m[k] else ProductAcc(r.itemName, r.category, 0, 0, {});
    m[k := a.(totalQuantity := a.totalQuantity + r.quantity,
              totalRevenue := a.totalRevenue + r.subtotal,
              orderIds := a.orderIds + {r.orderId})]
  }

  /** The distinct order ids of some rows. */
  function OrderIds(g: seq<SoldItem>): set<Option<string>> {
    set r | r in g :: r.orderId
  }

  /** A product's entry as the group of its rows determines it. */
  function ProductOf<K(==)>(items: seq<SoldItem>, keyOf: SoldItem -> Option<K>, k: K): ProductAcc
    requires Group(items, keyOf, k) != []
  {
    var g := Group(items, keyOf, k);
    ProductAcc(g[0].itemName, g[0].category, Sum(g, RowQuantity), Sum(g, RowSubtotal), OrderIds(g))
  }

  /** The product dictionary has an entry exactly for the keys that occur. */
  lemma {:induction false} ProductMapKeys<K(!new)>(items: seq<SoldItem>, keyOf: SoldItem -> Option<K>)
    ensures forall k :: k in ProductMap(items, keyOf) <==> k in Keys(items, keyOf)
    decreases |items|
  {
    if items != [] {
      var s := items[..|items| - 1];
      var r := items[|items| - 1];
      assert items == s + [r];
      ProductMapKeys(s, keyOf);
      KeysSnoc(s, r, keyOf);
    }
  }

  lemma OrderIdsSnoc(g: seq<SoldItem>, r: SoldItem)
    ensures OrderIds(g + [r]) == OrderIds(g) + {r.orderId}
  {
    assert forall x :: x in g + [r] <==> x in g || x == r;
  }

  /** A row with key `k` adds itself to `k`'s entry, creating it from the row if need
      be. */
  lemma ProductMapSameStep<K>(s: seq<SoldItem>, r: SoldItem, keyOf: SoldItem -> Option<K>, k: K)
    requires keyOf(r) == Some(k)
    requires k in ProductMap(s, keyOf) ==> Group(s, keyOf, k) != [] && ProductMap(s, keyOf)[k] == ProductOf(s, keyOf, k)
    requires k !in ProductMap(s, keyOf) ==> Group(s, keyOf, k) == []
    ensures k in ProductMap(s + [r], keyOf) && Group(s + [r], keyOf, k) != []
    ensures ProductMap(s + [r], keyOf)[k] == ProductOf(s + [r], keyOf, k)
  {
    assert (s + [r])[..|s|] == s;
    assert ProductMap(s + [r], keyOf) == AddRow(ProductMap(s, keyOf), k, r);
    GroupSnoc(s, r, keyOf, k);
    var g := Group(s, keyOf, k);
    AddRowEntry(ProductMap(s, keyOf), k, r, g);
  }

  /** Adding a row to the entry of a group `g` gives the entry of `g + [r]`. */
  lemma AddRowEntry<K>(m: map<K, ProductAcc>, k: K, r: SoldItem, g: seq<SoldItem>)
    requires k in m ==> g != [] && m[k] == ProductAcc(g[0].itemName, g[0].category, Sum(g, RowQuantity), Sum(g, RowSubtotal), OrderIds(g))
    requires k !in m ==> g == []
    ensures k in AddRow(m, k, r)
    ensures var h := g + [r];
      AddRow(m, k, r)[k] == ProductAcc(h[0].itemName, h[0].category, Sum(h, RowQuantity), Sum(h, RowSubtotal), OrderIds(h))
  {
    SumSnoc(g, r, RowQuantity);
    SumSnoc(g, r, RowSubtotal);
    OrderIdsSnoc(g, r);
    if k !in m {
      assert g + [r] == [r];
    }
  }

  /** A row with another key leaves `k`'s entry alone. */
  lemma ProductMapOtherStep<K>(s: seq<SoldItem>, r: SoldItem, keyOf: SoldItem -> Option<K>, k: K)
    requires keyOf(r) != Some(k)
    ensures k in ProductMap(s + [r], keyOf) <==> k in ProductMap(s, keyOf)
    ensures k in ProductMap(s, keyOf) ==> ProductMap(s + [r], keyOf)[k] == ProductMap(s, keyOf)[k]
    ensures Group(s + [r], keyOf, k) == Group(s, keyOf, k)
  {
    assert (s + [r])[..|s|] == s;
    GroupSnoc(s, r, keyOf, k);
    assert Group(s, keyOf, k) + [] == Group(s, keyOf, k);
  }

  /** A product's entry takes its name and category from its first row and sums
      quantity, revenue and the set of order ids over all its rows. */
  lemma {:induction false} ProductMapEntry<K>(items: seq<SoldItem>, keyOf: SoldItem -> Option<K>, k: K)
    ensures k in ProductMap(items, keyOf) ==>
      Group(items, keyOf, k) != [] && ProductMap(items, keyOf)[k] == ProductOf(items, keyOf, k)
    ensures k !in ProductMap(items, keyOf) ==> Group(items, keyOf, k) == []
    decreases |items|
  {
    if items != [] {
      var s := items[..|items| - 1];
      var r := items[|items| - 1];
      assert items == s + [r];
      ProductMapEntry(s, keyOf, k);
      if keyOf(r) == Some(k) {
        ProductMapSameStep(s, r, keyOf, k);
      } else {
        ProductMapOtherStep(s, r, keyOf, k);
      }
    }
  }

  /** `agg.totalRevenue / agg.totalQuantity`; a zero quantity gives no number. */
  function AveragePrice(revenue: int, quantity: int): Option<real> {
    if quantity != 0 then Some(revenue as real / quantity as real) else None
  }

  /** The `map` step: the average price and the size of the order-id set. */
  function Finalize(a: ProductAcc): ProductRow {
    ProductRow(KeyText(a.itemName) + "-" + a.category, a.itemName, a.category, a.totalQuantity, a.totalRevenue,
               AveragePrice(a.totalRevenue, a.totalQuantity), |a.orderIds|)
  }

  function FinalizeAll(accs: seq<ProductAcc>): (r: seq<ProductRow>)
    ensures |r| == |accs|
    ensures forall i :: 0 <= i < |accs| ==> r[i] == Finalize(accs[i])
  {
    if accs == [] then []
    else FinalizeAll(accs[..|accs| - 1]) + [Finalize(accs[|accs| - 1])]
  }

  /** `Object.values(aggregatedMap).map(...)`: one row per key, in first-seen order. */
  function ProductList<K(==, !new)>(items: seq<SoldItem>, keyOf: SoldItem -> Option<K>): seq<ProductRow> {
    ProductMapKeys(items, keyOf);
    FinalizeAll(Values(ProductMap(items, keyOf), Keys(items, keyOf)))
  }

  function TotalQuantity(p: ProductRow): int { p.totalQuantity }
  function TotalRevenue(p: ProductRow): int { p.totalRevenue }
  function ProductCategory(p: ProductRow): Option<string> { Some(p.category) }

  /** The products view for rows grouped by `keyOf`: the rows of the selected category
      in grouping order, or under "all" every row sorted by total quantity, highest
      first. */
  function AggregatedView<K(==, !new)>(items: seq<SoldItem>, keyOf: SoldItem -> Option<K>, filterCategory: string): seq<ProductRow> {
    if |items| == 0 then []
    else
      var agg := ProductList(items, keyOf);
      if filterCategory != All then Group(agg, ProductCategory, filterCategory)
      else SortDesc(agg, TotalQuantity)
  }

  /** `aggregatedSoldItems`, grouping by the string key `${itemName}-${category}`. */
  function AggregatedSoldItems(items: seq<SoldItem>, filterCategory: string): seq<ProductRow> {
    AggregatedView(items, SourceKey, filterCategory)
  }

  /** The products view as it is meant to be: grouping by the item name and category
      themselves, so that no two distinct pairs are ever merged. */
  function PairSoldItems(items: seq<SoldItem>, filterCategory: string): seq<ProductRow> {
    AggregatedView(items, PairKey, filterCategory)
  }

  /** One step of the `forEach` that fills `aggregatedMap`: the entry of the row's key
      is created if missing and then gains the row's quantity, subtotal and order id. */
  method AddProductRow<K(==, !new)>(seen: seq<SoldItem>, r: SoldItem, keyOf: SoldItem -> Option<K>,
                                    aggregated: map<K, ProductAcc>, keys: seq<K>)
    returns (aggregated': map<K, ProductAcc>, keys': seq<K>)
    requires aggregated == ProductMap(seen, keyOf) && keys == Keys(seen, keyOf)
    ensures aggregated' == ProductMap(seen + [r], keyOf) && keys' == Keys(seen + [r], keyOf)
  {
    assert (seen + [r])[..|seen|] == seen;
    ProductMapKeys(seen, keyOf);
    KeysSnoc(seen, r, keyOf);
    aggregated', keys' := aggregated, keys;
    var key := keyOf(r);
    if key.Some? {
      var k := key.value;
      if k !in aggregated' {
        aggregated' := aggregated'[k := ProductAcc(r.itemName, r.category, 0, 0, {})];
        keys' := keys' + [k];
      }
      var a := aggregated'[k];
      aggregated' := aggregated'[k := a.(totalQuantity := a.totalQuantity + r.quantity,
                                         totalRevenue := a.totalRevenue + r.subtotal,
                                         orderIds := a.orderIds + {r.orderId})];
      assert aggregated' == AddRow(aggregated, k, r);
    }
  }

  /** The `forEach` that fills `aggregatedMap`, followed by `Object.values(...).map(...)`. */
  method GroupProducts<K(==, !new)>(items: seq<SoldItem>, keyOf: SoldItem -> Option<K>) returns (list: seq<ProductRow>)
    ensures list == ProductList(items, keyOf)
  {
    var aggregated: map<K, ProductAcc> := map[];
    var keys: seq<K> := [];
    var i := 0;
    while i < |items|
      invariant 0 <= i <= |items|
      invariant aggregated == ProductMap(items[..i], keyOf) && keys == Keys(items[..i], keyOf)
    {
      assert items[..i + 1] == items[..i] + [items[i]];
      aggregated, keys := AddProductRow(items[..i], items[i], keyOf, aggregated, keys);
      i := i + 1;
    }
    assert items[..i] == items;
    ProductMapKeys(items, keyOf);
    list := FinalizeAll(Values(aggregated, keys));
  }

  /** The `useMemo` body of `aggregatedSoldItems`. */
  method AggregateSoldItems(items: seq<SoldItem>, filterCategory: string) returns (r: seq<ProductRow>)
    ensures r == AggregatedSoldItems(items, filterCategory)
  {
    if |items| == 0 {
      return [];
    }
    var aggregated := GroupProducts(items, SourceKey);
    if filterCategory != All {
      return Group(aggregated, ProductCategory, filterCategory);
    }
    r := SortDesc(aggregated, TotalQuantity);
  }

  // ---------------------------------------------------------------- products: facts

  /** The product rows added up equal the groups added up. */
  lemma {:induction false} ProductSums<K(!new)>(items: seq<SoldItem>, keyOf: SoldItem -> Option<K>, ks: seq<K>)
    requires forall k :: k in ks ==> k in ProductMap(items, keyOf)
    ensures Sum(FinalizeAll(Values(ProductMap(items, keyOf), ks)), TotalQuantity) == SumOverKeys(ks, items, keyOf, RowQuantity)
    ensures Sum(FinalizeAll(Values(ProductMap(items, keyOf), ks)), TotalRevenue) == SumOverKeys(ks, items, keyOf, RowSubtotal)
    decreases |ks|
  {
    if ks != [] {
      var n := |ks| - 1;
      var k := ks[n];
      var m := ProductMap(items, keyOf);
      var g := Group(items, keyOf, k);
      ProductSums(items, keyOf, ks[..n]);
      assert m[k].totalQuantity == Sum(g, RowQuantity) && m[k].totalRevenue == Sum(g, RowSubtotal) by {
        ProductMapEntry(items, keyOf, k);
      }
      var vs := Values(m, ks[..n]);
      assert Values(m, ks) == vs + [m[k]];
      FinalizeAllSums(vs, m[k]);
    }
  }

  lemma FinalizeAllSums(accs: seq<ProductAcc>, a: ProductAcc)
    ensures Sum(FinalizeAll(accs + [a]), TotalQuantity) == Sum(FinalizeAll(accs), TotalQuantity) + a.totalQuantity
    ensures Sum(FinalizeAll(accs + [a]), TotalRevenue) == Sum(FinalizeAll(accs), TotalRevenue) + a.totalRevenue
  {
    assert (accs + [a])[..|accs|] == accs;
    SumSnoc(FinalizeAll(accs), Finalize(a), TotalQuantity);
    SumSnoc(FinalizeAll(accs), Finalize(a), TotalRevenue);
  }

  /** Every row lands in exactly one product: the products' quantities and revenues add
      up to the rows' quantities and subtotals, whichever key groups them. */
  lemma ProductTotalsAddUp<K(!new)>(items: seq<SoldItem>, keyOf: SoldItem -> Option<K>)
    requires forall r :: r in items ==> keyOf(r).Some?
    ensures Sum(ProductList(items, keyOf), TotalQuantity) == Sum(items, RowQuantity)
    ensures Sum(ProductList(items, keyOf), TotalRevenue) == Sum(items, RowSubtotal)
  {
    ProductMapKeys(items, keyOf);
    ProductSums(items, keyOf, Keys(items, keyOf));
    PartitionSum(items, keyOf, RowQuantity);
    PartitionSum(items, keyOf, RowSubtotal);
    KeyedEverything(items, keyOf);
  }

  /** The `i`th product row is the group of the `i`th key, finalized. */
  lemma ProductRowAt<K(!new)>(items: seq<SoldItem>, keyOf: SoldItem -> Option<K>, i: nat)
    requires i < |Keys(items, keyOf)|
    ensures var k := Keys(items, keyOf)[i];
      && Group(items, keyOf, k) != []
      && i < |ProductList(items, keyOf)|
      && ProductList(items, keyOf)[i] == Finalize(ProductOf(items, keyOf, k))
  {
    var k := Keys(items, keyOf)[i];
    ProductMapKeys(items, keyOf);
    ProductMapEntry(items, keyOf, k);
  }

  /** No order id is counted twice, and a product row's order count is at most its
      number of rows. */
  lemma {:induction false} OrderIdsAtMost(g: seq<SoldItem>)
    ensures |OrderIds(g)| <= |g|
    decreases |g|
  {
    if g != [] {
      var s := g[..|g| - 1];
      var r := g[|g| - 1];
      assert g == s + [r];
      OrderIdsAtMost(s);
      OrderIdsSnoc(s, r);
    }
  }

  /** What the `i`th product row stands for, whichever key groups the rows: the rows
      of its key, all of which share that key; its name and category are its first
      row's, its totals their sums, its order count the number of distinct order ids
      among them (at least 1, at most their number). */
  lemma ProductAt<K(!new)>(items: seq<SoldItem>, keyOf: SoldItem -> Option<K>, i: nat)
    requires i < |Keys(items, keyOf)|
    ensures var k, list := Keys(items, keyOf)[i], ProductList(items, keyOf);
      var g := Group(items, keyOf, k);
      && i < |list| && g != [] && keyOf(g[0]) == Some(k)
      && list[i] == Finalize(ProductOf(items, keyOf, k))
      && (forall r :: r in g <==> r in items && keyOf(r) == Some(k))
      && list[i].itemName == g[0].itemName && list[i].category == g[0].category
      && list[i].totalQuantity == Sum(g, RowQuantity)
      && list[i].totalRevenue == Sum(g, RowSubtotal)
      && list[i].orderCount == |OrderIds(g)|
      && 1 <= list[i].orderCount <= |g|
  {
    var k := Keys(items, keyOf)[i];
    ProductRowAt(items, keyOf, i);
    var g := Group(items, keyOf, k);
    GroupMembers(items, keyOf, k);
    assert g[0] in g;
    assert g[0].orderId in OrderIds(g);
    OrderIdsAtMost(g);
  }

  /** The `i`th product row grouped by the string key carries the `i`th key. */
  lemma SourceKeyAt(items: seq<SoldItem>, i: nat)
    requires i < |Keys(items, SourceKey)|
    ensures i < |ProductList(items, SourceKey)|
    ensures ProductList(items, SourceKey)[i].key == Keys(items, SourceKey)[i]
  {
    ProductRowAt(items, SourceKey, i);
    var g := Group(items, SourceKey, Keys(items, SourceKey)[i]);
    GroupMembers(items, SourceKey, Keys(items, SourceKey)[i]);
    assert g[0] in g;
  }

  /** The products tab as written, grouping by `${itemName}-${category}`: one product
      row per distinct key string, in first-seen order, each carrying its key; a row
      stands for exactly the rows whose key string is its key, with their sums and
      their distinct order ids. */
  lemma SourceProducts(items: seq<SoldItem>)
    ensures var list, ks := ProductList(items, SourceKey), Keys(items, SourceKey);
      && |list| == |ks|
      && forall i :: 0 <= i < |list| ==> list[i].key == ks[i]
    ensures forall p :: p in ProductList(items, SourceKey) ==>
      var g := Group(items, SourceKey, p.key);
      && g != []
      && (forall r :: r in g <==> r in items && SourceKey(r) == Some(p.key))
      && p.totalQuantity == Sum(g, RowQuantity)
      && p.totalRevenue == Sum(g, RowSubtotal)
      && p.orderCount == |OrderIds(g)|
      && 1 <= p.orderCount <= |g|
  {
    var list, ks := ProductList(items, SourceKey), Keys(items, SourceKey);
    ProductMapKeys(items, SourceKey);
    forall i | 0 <= i < |list| ensures list[i].key == ks[i] {
      SourceKeyAt(items, i);
    }
    forall p | p in list
      ensures var g := Group(items, SourceKey, p.key);
        && g != []
        && (forall r :: r in g <==> r in items && SourceKey(r) == Some(p.key))
        && p.totalQuantity == Sum(g, RowQuantity)
        && p.totalRevenue == Sum(g, RowSubtotal)
        && p.orderCount == |OrderIds(g)|
        && 1 <= p.orderCount <= |g|
    {
      var i :| 0 <= i < |list| && list[i] == p;
      SourceKeyAt(items, i);
      ProductAt(items, SourceKey, i);
    }
  }

  /** Grouping by the string key, every row is counted in the product of its key. */
  lemma SourceRowsCounted(items: seq<SoldItem>)
    ensures forall r :: r in items ==>
      exists p :: p in ProductList(items, SourceKey) && SourceKey(r) == Some(p.key)
  {
    var list, ks := ProductList(items, SourceKey), Keys(items, SourceKey);
    forall r | r in items ensures exists p :: p in list && SourceKey(r) == Some(p.key) {
      KeyListed(items, SourceKey, r);
      var i :| 0 <= i < |ks| && ks[i] == SourceKey(r).value;
      SourceKeyAt(items, i);
      assert list[i] in list;
    }
  }

  /** Grouping by the pair: one product row per distinct (item name, category) pair,
      in first-seen order; a row stands for exactly the rows with its item name and
      category, with their sums and their distinct order ids (at least 1, at most their
      number); and every row is counted in the product of its pair. */
  lemma PairProducts(items: seq<SoldItem>)
    ensures var list, ks := ProductList(items, PairKey), Keys(items, PairKey);
      && |list| == |ks|
      && forall i :: 0 <= i < |list| ==> (list[i].itemName, list[i].category) == ks[i]
    ensures forall p :: p in ProductList(items, PairKey) ==>
      var g := Group(items, PairKey, (p.itemName, p.category));
      && g != []
      && (forall r :: r in g <==> r in items && r.itemName == p.itemName && r.category == p.category)
      && p.totalQuantity == Sum(g, RowQuantity)
      && p.totalRevenue == Sum(g, RowSubtotal)
      && p.orderCount == |OrderIds(g)|
      && 1 <= p.orderCount <= |g|
    ensures forall r :: r in items ==>
      exists p :: p in ProductList(items, PairKey) && p.itemName == r.itemName && p.category == r.category
  {
    var list, ks := ProductList(items, PairKey), Keys(items, PairKey);
    ProductMapKeys(items, PairKey);
    forall i | 0 <= i < |list| ensures (list[i].itemName, list[i].category) == ks[i] {
      ProductAt(items, PairKey, i);
    }
    forall p | p in list
      ensures var g := Group(items, PairKey, (p.itemName, p.category));
        && g != []
        && (forall r :: r in g <==> r in items && r.itemName == p.itemName && r.category == p.category)
        && p.totalQuantity == Sum(g, RowQuantity)
        && p.totalRevenue == Sum(g, RowSubtotal)
        && p.orderCount == |OrderIds(g)|
        && 1 <= p.orderCount <= |g|
    {
      var i :| 0 <= i < |list| && list[i] == p;
      ProductAt(items, PairKey, i);
    }
    forall r | r in items ensures exists p :: p in list && p.itemName == r.itemName && p.category == r.category {
      KeyListed(items, PairKey, r);
      var i :| 0 <= i < |ks| && ks[i] == (r.itemName, r.category);
      ProductAt(items, PairKey, i);
      assert list[i] in list;
    }
  }

  /** With every row's quantity at least 1 (as `quantity || 1` gives for any record
      without a negative quantity) every product has an average price: its total
      revenue divided by its total quantity. */
  lemma AveragePriceDefined<K(!new)>(items: seq<SoldItem>, keyOf: SoldItem -> Option<K>)
    requires forall r :: r in items ==> r.quantity >= 1
    ensures forall p :: p in ProductList(items, keyOf) ==>
      p.totalQuantity >= 1 && p.avgPrice == Some(p.totalRevenue as real / p.totalQuantity as real)
  {
    var list := ProductList(items, keyOf);
    var ks := Keys(items, keyOf);
    forall p | p in list
      ensures p.totalQuantity >= 1 && p.avgPrice == AveragePrice(p.totalRevenue, p.totalQuantity)
    {
      var i :| 0 <= i < |list| && list[i] == p;
      ProductRowAt(items, keyOf, i);
      var g := Group(items, keyOf, ks[i]);
      GroupMembers(items, keyOf, ks[i]);
      SumAtLeastLength(g, RowQuantity);
    }
  }

  /** The average price is missing exactly when the total quantity is zero, and
      otherwise times the total quantity gives back the total revenue. */
  lemma AveragePriceMeaning(revenue: int, quantity: int)
    ensures quantity == 0 <==> AveragePrice(revenue, quantity).None?
    ensures quantity != 0 ==> AveragePrice(revenue, quantity).value * (quantity as real) == revenue as real
  {
    if quantity != 0 {
      var q := quantity as real;
      assert (revenue as real / q) * q == revenue as real;
    }
  }

  /** The products view: nothing without rows; under "all" every product row, sorted
      by total quantity, highest first; for a category exactly that category's product
      rows, left in grouping order. */
  lemma AggregatedSoldItemsMeaning(items: seq<SoldItem>, filterCategory: string)
    ensures |items| == 0 ==> AggregatedSoldItems(items, filterCategory) == []
    ensures |items| > 0 && filterCategory == All ==>
      var r := AggregatedSoldItems(items, filterCategory);
      SortedDesc(r, TotalQuantity) && multiset(r) == multiset(ProductList(items, SourceKey))
    ensures |items| > 0 && filterCategory != All ==>
      var r, list := AggregatedSoldItems(items, filterCategory), ProductList(items, SourceKey);
      var ix := Positions(list, ProductCategory, filterCategory);
      && (forall i :: 0 <= i < |list| ==> (i in ix <==> list[i].category == filterCategory))
      && |r| == |ix|
      && (forall j :: 0 <= j < |ix| ==> r[j] == list[ix[j]])
  {
    var list := ProductList(items, SourceKey);
    SortDescSorted(list, TotalQuantity);
    GroupIsSelection(list, ProductCategory, filterCategory);
  }

  // ---------------------------------------------------------------- the finding

  /** With the string key, two rows with different item names and categories can share
      a key: "a-b" in category "c" and "a" in category "b-c" are summed into one
      product shown as "a-b" in "c". Grouping by the pair keeps them apart. */
  lemma SourceKeyMergesProducts()
    ensures var r1 := SoldItem(None, None, None, Some("a-b"), "c", 1, 5, 5, None, None);
      var r2 := SoldItem(None, None, None, Some("a"), "b-c", 2, 5, 10, None, None);
      && SourceKey(r1) == SourceKey(r2)
      && (r1.itemName, r1.category) != (r2.itemName, r2.category)
      && ProductList([r1, r2], SourceKey)
         == [ProductRow("a-b-c", Some("a-b"), "c", 3, 15, Some(5.0), 1)]
      && |ProductList([r1, r2], PairKey)| == 2
  {
    var r1 := SoldItem(None, None, None, Some("a-b"), "c", 1, 5, 5, None, None);
    var r2 := SoldItem(None, None, None, Some("a"), "b-c", 2, 5, 10, None, None);
    var s := [r1, r2];
    assert s[..1] == [r1];
    assert [r1][..0] == [];
    assert KeyText(r1.itemName) == "a-b";
    assert KeyText(r2.itemName) == "a";
    assert "a-b" + "-" + "c" == "a-b-c";
    assert "a" + "-" + "b-c" == "a-b-c";
    assert SourceKey(r1) == Some("a-b-c");
    assert SourceKey(r2) == Some("a-b-c");
    var key := "a-b-c";
    assert Keys([r1], SourceKey) == [key];
    assert Keys(s, SourceKey) == [key];
    assert Keys([r1], PairKey) == [(Some("a-b"), "c")];
    assert Keys(s, PairKey) == [(Some("a-b"), "c"), (Some("a"), "b-c")];
    var m1 := ProductMap([r1], SourceKey);
    var empty: map<string, ProductAcc> := map[];
    assert ProductMap([r1][..0], SourceKey) == empty;
    assert m1 == AddRow(empty, key, r1);
    assert m1[key] == ProductAcc(Some("a-b"), "c", 1, 5, {None});
    assert ProductMap(s, SourceKey) == AddRow(m1, key, r2);
    var ids: set<Option<string>> := {None};
    assert ProductMap(s, SourceKey)[key] == ProductAcc(Some("a-b"), "c", 3, 15, ids);
    assert |ids| == 1;
    assert AveragePrice(15, 3) == Some(5.0);
  }

  /** Two keys that split the rows into the same classes give the same product rows,
      in the same order. */
  lemma SameClassesSameProducts<K1(!new), K2(!new)>(items: seq<SoldItem>, a: SoldItem -> Option<K1>, b: SoldItem -> Option<K2>)
    requires forall r :: r in items ==> a(r).Some? && b(r).Some?
    requires forall r1, r2 :: r1 in items && r2 in items ==> (a(r1) == a(r2) <==> b(r1) == b(r2))
    ensures ProductList(items, a) == ProductList(items, b)
  {
    var la, lb := ProductList(items, a), ProductList(items, b);
    var ka, kb := Keys(items, a), Keys(items, b);
    FirstSeenKeys(items, a);
    FirstSeenKeys(items, b);
    SameClassesSameFirsts(items, a, b);
    ProductMapKeys(items, a);
    ProductMapKeys(items, b);
    assert |la| == |lb|;
    forall i | 0 <= i < |la| ensures la[i] == lb[i] {
      var w := FirstSeen(items, a)[i];
      assert w in items && a(w) == Some(ka[i]) && b(w) == Some(kb[i]);
      ProductRowAt(items, a, i);
      ProductRowAt(items, b, i);
      forall y | y in items ensures a(y) == Some(ka[i]) <==> b(y) == Some(kb[i]) {
        assert a(y) == a(w) <==> b(y) == b(w);
      }
      GroupsAgree(items, a, b, ka[i], kb[i]);
    }
  }

  /** Without a "-" in the item name, the string key `${itemName}-${category}` tells
      the item name and the category apart again. */
  lemma SourceKeyInjective(r1: SoldItem, r2: SoldItem)
    requires r1.itemName.Some? && r2.itemName.Some?
    requires '-' !in r1.itemName.value && '-' !in r2.itemName.value
    ensures SourceKey(r1) == SourceKey(r2) <==> PairKey(r1) == PairKey(r2)
  {
    var n1, n2 := r1.itemName.value, r2.itemName.value;
    if SourceKey(r1) == SourceKey(r2) {
      var t := n1 + "-" + r1.category;
      assert t == n2 + "-" + r2.category;
      if |n1| < |n2| {
        ShorterNameDiffers(n1, r1.category, n2, r2.category);
      } else if |n2| < |n1| {
        ShorterNameDiffers(n2, r2.category, n1, r1.category);
      }
      assert n1 == t[..|n1|] == n2;
      assert r1.category == t[|n1| + 1..] == r2.category;
    }
  }

  /** A name without "-" cannot be extended into a longer one that keeps the key: the
      first "-" of the key ends the name. */
  lemma ShorterNameDiffers(n1: string, c1: string, n2: string, c2: string)
    requires '-' !in n2 && |n1| < |n2|
    ensures n1 + "-" + c1 != n2 + "-" + c2
  {
    assert (n1 + "-" + c1)[|n1|] == '-';
    assert (n2 + "-" + c2)[|n1|] == n2[|n1|];
  }

  /** The collision above is the only way the two keys differ: when every row has an
      item name and no item name contains "-", the products tab as written shows
      exactly the product rows of the corrected one. */
  lemma SourceKeyAgreesWithPair(items: seq<SoldItem>, filterCategory: string)
    requires forall r :: r in items ==> r.itemName.Some? && '-' !in r.itemName.value
    ensures ProductList(items, SourceKey) == ProductList(items, PairKey)
    ensures AggregatedSoldItems(items, filterCategory) == PairSoldItems(items, filterCategory)
  {
    forall r1, r2 | r1 in items && r2 in items
      ensures SourceKey(r1) == SourceKey(r2) <==> PairKey(r1) == PairKey(r2)
    {
      SourceKeyInjective(r1, r2);
    }
    SameClassesSameProducts(items, SourceKey, PairKey);
  }

  // ---------------------------------------------------------------- categories

  /** `categories`: "all" followed by the distinct row categories in ascending string
      order. */
  function Categories(items: seq<SoldItem>): seq<string> {
    if |items| == 0 then [All] else [All] + SortLex(Keys(items, CategoryKey))
  }

  /** The picker offers "all" first and then every category that occurs among the
      rows, once each, in ascending order, and nothing else. */
  lemma CategoriesMeaning(items: seq<SoldItem>)
    ensures var cs := Categories(items);
      && |cs| >= 1 && cs[0] == All
      && SortedLex(cs[1..])
      && Distinct(cs[1..])
      && forall c :: c in cs[1..] <==> exists r :: r in items && r.category == c
  {
    var cs := Categories(items);
    var ks := Keys(items, CategoryKey);
    assert cs[1..] == if |items| == 0 then [] else SortLex(ks);
    SortLexSorted(ks);
    DistinctPermutation(ks, SortLex(ks));
    forall c ensures c in SortLex(ks) <==> exists r :: r in items && r.category == c {
      CategoryListed(items, c);
    }
  }

  /** A category is among the sorted keys exactly when some row has it. */
  lemma CategoryListed(items: seq<SoldItem>, c: string)
    ensures c in SortLex(Keys(items, CategoryKey)) <==> exists r :: r in items && r.category == c
  {
    var ks := Keys(items, CategoryKey);
    assert c in SortLex(ks) <==> c in multiset(SortLex(ks));
    assert c in ks <==> c in multiset(ks);
    KeysAreGroups(items, CategoryKey);
    GroupMembers(items, CategoryKey, c);
    if c in ks {
      var g := Group(items, CategoryKey, c);
      assert g[0] in g;
    }
  }
}
