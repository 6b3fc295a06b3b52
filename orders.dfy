/** The raw order record the dashboard receives from the order service, and the
    fallback reads it makes of it (src/pages/Dashboard.jsx). Every field the source
    reads through `a || b` is optional here; a timestamp is an integer instant. */
module Orders {
  import opened Fallback

  /** The category label used when an item names none. */
  const DefaultCategory: string := "Boshqa"

  datatype LineItem = LineItem(
    name: Option<string>,          // item.name
    itemName: Option<string>,      // item.item_name
    quantity: Option<int>,         // item.quantity
    price: Option<int>,            // item.price
    unitPrice: Option<int>,        // item.unit_price
    categoryName: Option<string>,  // item.category_name
    category: Option<string>)      // item.category

  datatype MixedPayment = MixedPayment(cashAmount: Option<int>, cardAmount: Option<int>)

  datatype Order = Order(
    id: Option<string>,            // order._id
    legacyId: Option<string>,      // order.id
    dailyOrderNumber: Option<int>, // order.daily_order_number
    orderNumber: Option<int>,      // order.order_number
    createdAt: Option<int>,        // order.createdAt
    orderDate: Option<int>,        // order.order_date
    finalTotal: Option<int>,       // order.final_total
    totalPrice: Option<int>,       // order.total_price
    serviceAmount: Option<int>,    // order.service_amount
    paymentMethod: Option<string>, // order.paymentMethod
    mixedPaymentDetails: Option<MixedPayment>,
    waiterName: Option<string>,    // order.waiter_name
    tableNumber: Option<int>,      // order.table_number
    items: Option<seq<LineItem>>,  // order.items
    orderedItems: Option<seq<LineItem>>) // order.ordered_items

  /** `final_total || total_price || 0`. */
  function Total(o: Order): int {
    NumberOr(o.finalTotal, NumberOr(o.totalPrice, 0))
  }

  /** `service_amount || 0`. */
  function Service(o: Order): int {
    NumberOr(o.serviceAmount, 0)
  }

  /** The waiter an order is credited to: `waiter_name` when it is truthy. */
  function WaiterKey(o: Order): Option<string> {
    if TruthyText(o.waiterName) then o.waiterName else None
  }

  /** `createdAt || order_date`: the date a sold-item row carries (possibly none). */
  function DateField(o: Order): Option<int> {
    if o.createdAt.Some? then o.createdAt else o.orderDate
  }

  /** The instant `moment(createdAt || order_date)` denotes: an order with neither
      date is read as the current instant `now`, as `moment(undefined)` is. */
  function Timestamp(o: Order, now: int): int {
    var d := DateField(o);
    if d.Some? then d.value else now
  }

  /** `items || ordered_items || []`: an array is truthy even when empty, so a present
      `items` list wins over `ordered_items`. */
  function OrderItems(o: Order): seq<LineItem> {
    if o.items.Some? then o.items.value
    else if o.orderedItems.Some? then o.orderedItems.value
    else []
  }

  /** `order._id || order.id`. */
  function OrderId(o: Order): Option<string> {
    TextOr(o.id, o.legacyId)
  }

  /** `daily_order_number || order_number`. */
  function OrderNumber(o: Order): Option<int> {
    if TruthyNumber(o.dailyOrderNumber) then o.dailyOrderNumber else o.orderNumber
  }

  /** `item.quantity || 1`. */
  function Quantity(it: LineItem): int {
    NumberOr(it.quantity, 1)
  }

  /** `item.price || item.unit_price || 0`. */
  function Price(it: LineItem): int {
    NumberOr(it.price, NumberOr(it.unitPrice, 0))
  }

  /** `item.name || item.item_name`. */
  function ItemName(it: LineItem): Option<string> {
    TextOr(it.name, it.itemName)
  }

  /** `item.category_name || item.category || "Boshqa"`. */
  function Category(it: LineItem): string {
    TextOrDefault(it.categoryName, it.category, DefaultCategory)
  }

  // ---------------------------------------------------------------- properties of the reads

  /** A final total of 0 is falsy and falls back to `total_price`; a missing or zero
      `total_price` after it gives 0. */
  lemma TotalFallback(o: Order)
    ensures TruthyNumber(o.finalTotal) ==> Total(o) == o.finalTotal.value
    ensures !TruthyNumber(o.finalTotal) && TruthyNumber(o.totalPrice) ==> Total(o) == o.totalPrice.value
    ensures !TruthyNumber(o.finalTotal) && !TruthyNumber(o.totalPrice) ==> Total(o) == 0
  {
  }

  /** A line item never counts as zero pieces: a missing or 0 quantity reads as 1, and
      the count is at least 1 unless the record carries a negative quantity. */
  lemma QuantityNeverZero(it: LineItem)
    ensures Quantity(it) != 0
    ensures (it.quantity.None? || it.quantity.value >= 0) ==> Quantity(it) >= 1
  {
  }

  /** Every item has a non-empty category; the default fills in for missing or empty
      category fields. */
  lemma CategoryNonEmpty(it: LineItem)
    ensures Category(it) != ""
    ensures !TruthyText(it.categoryName) && !TruthyText(it.category) ==> Category(it) == DefaultCategory
  {
  }
}
