/** The date filter of the dashboard (`filteredOrdersByPeriod`,
    src/pages/Dashboard.jsx:157-213): an explicit start/end date pair wins and is
    inclusive at both ends of the day range; otherwise a named period keeps the
    orders strictly after the period's start; with neither, every order passes.
    Calendar arithmetic is done by the moment library; its results come in as a
    `Calendar`. */
module PeriodFilter {
  import opened Fallback
  import opened Orders

  /** The instants the moment library supplies: the current instant, start and end of
      the day containing an instant, the starts of the current month and year, and the
      instant `days` days before now (`moment().subtract(days, "days")`). */
  datatype Calendar = Calendar(
    now: int,
    startOfDay: int -> int,
    endOfDay: int -> int,
    monthStart: int,
    yearStart: int,
    daysAgo: nat -> int)

  /** The filter state the dashboard keeps: `period`, `startDate`, `endDate`,
      `activeQuickFilter` and `filterCategory`. Dates are instants. */
  datatype FilterState = FilterState(
    period: Option<string>,
    startDate: Option<int>,
    endDate: Option<int>,
    activeQuickFilter: Option<string>,
    filterCategory: string)

  /** The state the dashboard starts in. */
  function InitialState(): FilterState {
    FilterState(Some("daily"), None, None, None, "all")
  }

  /** `startDate && endDate`: an explicit range is in force. */
  predicate RangeActive(st: FilterState) {
    st.startDate.Some? && st.endDate.Some?
  }

  /** The window an order's instant is compared with. */
  datatype Window = Between(lo: int, hi: int) | After(start: int) | Everything

  predicate InWindow(t: int, w: Window) {
    match w
    case Between(lo, hi) => lo <= t <= hi
    case After(start) => t > start
    case Everything => true
  }

  /** The start of a named period; an unrecognised name means the start of today. */
  function PeriodStart(period: string, cal: Calendar): int {
    match period
    case "daily" => cal.startOfDay(cal.now)
    case "monthly" => cal.monthStart
    case "yearly" => cal.yearStart
    case _ => cal.startOfDay(cal.now)
  }

  function ActiveWindow(st: FilterState, cal: Calendar): Window {
    if RangeActive(st) then Between(cal.startOfDay(st.startDate.value), cal.endOfDay(st.endDate.value))
    else if TruthyText(st.period) then After(PeriodStart(st.period.value, cal))
    else Everything
  }

  /** The orders whose instant lies in `w`, in their original order. */
  function Keep(orders: seq<Order>, w: Window, now: int): (r: seq<Order>)
    ensures |r| <= |orders|
    ensures forall o :: o in r <==> o in orders && InWindow(Timestamp(o, now), w)
  {
    if orders == [] then []
    else
      var o := orders[|orders| - 1];
      assert orders == orders[..|orders| - 1] + [o];
      Keep(orders[..|orders| - 1], w, now) + (if InWindow(Timestamp(o, now), w) then [o] else [])
  }

  /** `filteredOrdersByPeriod`. */
  function FilterByPeriod(orders: seq<Order>, st: FilterState, cal: Calendar): seq<Order> {
    if |orders| == 0 then [] else Keep(orders, ActiveWindow(st, cal), cal.now)
  }

  // ---------------------------------------------------------------- the filter's contract

  /** The positions of the orders that pass, in increasing order. */
  function KeptIndices(orders: seq<Order>, w: Window, now: int): (ix: seq<nat>)
    ensures forall k :: 0 <= k < |ix| ==> ix[k] < |orders|
    ensures forall k, l :: 0 <= k < l < |ix| ==> ix[k] < ix[l]
    ensures forall i :: 0 <= i < |orders| ==> (i in ix <==> InWindow(Timestamp(orders[i], now), w))
  {
    if orders == [] then []
    else
      var n := |orders| - 1;
      var ix := KeptIndices(orders[..n], w, now);
      assert forall i :: 0 <= i < n ==> orders[..n][i] == orders[i];
      ix + (if InWindow(Timestamp(orders[n], now), w) then [n] else [])
  }

  /** The filter is an order-preserving selection: its result is exactly the input at
      the increasing positions whose instant lies in the window. */
  lemma {:induction false} KeepIsSelection(orders: seq<Order>, w: Window, now: int)
    ensures |Keep(orders, w, now)| == |KeptIndices(orders, w, now)|
    ensures forall k :: 0 <= k < |KeptIndices(orders, w, now)|
              ==> Keep(orders, w, now)[k] == orders[KeptIndices(orders, w, now)[k]]
    decreases |orders|
  {
    if orders != [] {
      var n := |orders| - 1;
      var front := orders[..n];
      KeepIsSelection(front, w, now);
      var kept, ix := Keep(front, w, now), KeptIndices(front, w, now);
      var tail := if InWindow(Timestamp(orders[n], now), w) then [orders[n]] else [];
      assert Keep(orders, w, now) == kept + tail;
      assert KeptIndices(orders, w, now) == ix + (if tail == [] then [] else [n]);
      forall k | 0 <= k < |ix| ensures (kept + tail)[k] == orders[ix[k]] {
        assert front[ix[k]] == orders[ix[k]];
      }
    }
  }

  /** Membership in the filtered list, case by case: both dates set means the inclusive
      day range, else a truthy period means strictly after the period start, else all. */
  lemma FilterByPeriodMembership(orders: seq<Order>, st: FilterState, cal: Calendar, o: Order)
    ensures o in FilterByPeriod(orders, st, cal) <==>
      o in orders &&
      var t := Timestamp(o, cal.now);
      if st.startDate.Some? && st.endDate.Some? then
        cal.startOfDay(st.startDate.value) <= t <= cal.endOfDay(st.endDate.value)
      else if TruthyText(st.period) then t > PeriodStart(st.period.value, cal)
      else true
  {
  }

  /** With no range and no period every order passes, in its place. */
  lemma {:induction false} KeepEverything(orders: seq<Order>, now: int)
    ensures Keep(orders, Everything, now) == orders
    decreases |orders|
  {
    if orders != [] {
      var n := |orders| - 1;
      var front := orders[..n];
      KeepEverything(front, now);
      assert InWindow(Timestamp(orders[n], now), Everything);
      assert Keep(orders, Everything, now) == Keep(front, Everything, now) + [orders[n]];
      assert orders == front + [orders[n]];
    }
  }

  lemma NoFilterKeepsAll(orders: seq<Order>, st: FilterState, cal: Calendar)
    requires !RangeActive(st) && !TruthyText(st.period)
    ensures FilterByPeriod(orders, st, cal) == orders
  {
    if orders != [] { KeepEverything(orders, cal.now); }
  }

  /** An explicit range takes precedence: while both dates are set the period has no
      effect on the result. */
  lemma RangeOverridesPeriod(orders: seq<Order>, st: FilterState, cal: Calendar, p: Option<string>)
    requires RangeActive(st)
    ensures FilterByPeriod(orders, st, cal) == FilterByPeriod(orders, st.(period := p), cal)
  {
  }

  /** Boundaries: an order stamped exactly at the start of the first day or the end of
      the last day of a range passes; one stamped exactly at a period's start does not. */
  lemma RangeBoundsInclusive(orders: seq<Order>, st: FilterState, cal: Calendar, o: Order)
    requires RangeActive(st) && o in orders
    requires cal.startOfDay(st.startDate.value) <= cal.endOfDay(st.endDate.value)
    requires Timestamp(o, cal.now) == cal.startOfDay(st.startDate.value)
          || Timestamp(o, cal.now) == cal.endOfDay(st.endDate.value)
    ensures o in FilterByPeriod(orders, st, cal)
  {
  }

  lemma PeriodStartExcluded(orders: seq<Order>, st: FilterState, cal: Calendar, o: Order)
    requires !RangeActive(st) && TruthyText(st.period)
    requires Timestamp(o, cal.now) == PeriodStart(st.period.value, cal)
    ensures o !in FilterByPeriod(orders, st, cal)
  {
  }

  /** Any period name other than the three known ones filters like "daily". */
  lemma UnknownPeriodIsDaily(p: string, cal: Calendar)
    requires p != "daily" && p != "monthly" && p != "yearly"
    ensures PeriodStart(p, cal) == PeriodStart("daily", cal)
  {
  }
}
