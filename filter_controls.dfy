/** How the dashboard's filter state changes: the quick-filter buttons
    (`handleQuickFilter`), a custom range (`applyDateRangeFilter`), the two date
    inputs with their guards, and the reset button (src/pages/Dashboard.jsx:75-108,
    910-916, 931-935, 946-952). */
module FilterControls {
  import opened Fallback
  import opened Orders
  import opened PeriodFilter

  /** Both dates set means the start does not come after the end. */
  predicate DatesOrdered(st: FilterState) {
    RangeActive(st) ==> st.startDate.value <= st.endDate.value
  }

  /** What the moment library guarantees about the calendar it supplies: a day runs
      from its start to its end, taking the start or end of a day twice changes
      nothing, and "n days ago" is not in the future. */
  ghost predicate SaneCalendar(cal: Calendar) {
    && (forall t :: cal.startOfDay(t) <= t <= cal.endOfDay(t))
    && (forall t :: cal.startOfDay(cal.startOfDay(t)) == cal.startOfDay(t))
    && (forall t :: cal.endOfDay(cal.endOfDay(t)) == cal.endOfDay(t))
    && (forall d :: cal.daysAgo(d) <= cal.now)
  }

  /** `handleQuickFilter(days, caption)`: the range from the start of the day `days` days
      ago to the end of today, the button highlighted and the named period cleared. */
  function QuickFilter(st: FilterState, cal: Calendar, days: nat, caption: string): (r: FilterState)
    ensures RangeActive(r) && r.period == None
    ensures r.startDate == Some(cal.startOfDay(cal.daysAgo(days)))
    ensures r.endDate == Some(cal.endOfDay(cal.now))
    ensures r.activeQuickFilter == Some(caption) && r.filterCategory == st.filterCategory
    ensures SaneCalendar(cal) ==> DatesOrdered(r)
  {
    st.(startDate := Some(cal.startOfDay(cal.daysAgo(days))),
        endDate := Some(cal.endOfDay(cal.now)),
        activeQuickFilter := Some(caption),
        period := None)
  }

  /** `applyDateRangeFilter(start, end)`: the given range, with the quick-filter
      highlight and the named period both cleared. It does not check the order of the
      two dates. */
  function ApplyDateRange(st: FilterState, start: int, end: int): (r: FilterState)
    ensures RangeActive(r) && r.period == None && r.activeQuickFilter == None
    ensures r.startDate == Some(start) && r.endDate == Some(end)
    ensures r.filterCategory == st.filterCategory
  {
    st.(startDate := Some(start), endDate := Some(end), activeQuickFilter := None, period := None)
  }

  /** The start-date input: the new start is taken, and the end date is dropped when
      the new start lies after it (`null` compares as 0). */
  function ChangeStartDate(st: FilterState, newStart: Option<int>): (r: FilterState)
    ensures r.startDate == newStart
    ensures DatesOrdered(r)
    ensures r.endDate == None || r.endDate == st.endDate
    ensures r.endDate != st.endDate <==> st.endDate.Some? && NumberValue(newStart) > st.endDate.value
    ensures r.period == st.period && r.activeQuickFilter == st.activeQuickFilter
    ensures r.filterCategory == st.filterCategory
  {
    var r := st.(startDate := newStart);
    if st.endDate.Some? && NumberValue(newStart) > st.endDate.value then r.(endDate := None) else r
  }

  /** The end-date input: the new end is taken, and the start date is dropped when the
      new end lies before it (`null` compares as 0). */
  function ChangeEndDate(st: FilterState, newEnd: Option<int>): (r: FilterState)
    ensures r.endDate == newEnd
    ensures DatesOrdered(r)
    ensures r.startDate == None || r.startDate == st.startDate
    ensures r.startDate != st.startDate <==> st.startDate.Some? && NumberValue(newEnd) < st.startDate.value
    ensures r.period == st.period && r.activeQuickFilter == st.activeQuickFilter
    ensures r.filterCategory == st.filterCategory
  {
    var r := st.(endDate := newEnd);
    if st.startDate.Some? && NumberValue(newEnd) < st.startDate.value then r.(startDate := None) else r
  }

  /** The reset button: category "all", no dates, no highlight, the daily period —
      the state the dashboard starts in. */
  function Reset(st: FilterState): (r: FilterState)
    ensures r == InitialState()
    ensures !RangeActive(r) && r.period == Some("daily")
  {
    st.(filterCategory := "all", startDate := None, endDate := None,
        activeQuickFilter := None, period := Some("daily"))
  }

  // ---------------------------------------------------------------- consequences

  /** After a quick filter, with a sane calendar, an order passes exactly when its
      instant lies between the start of the day `days` days ago and the end of today. */
  lemma QuickFilterWindow(orders: seq<Order>, st: FilterState, cal: Calendar, days: nat, caption: string, o: Order)
    requires SaneCalendar(cal)
    ensures o in FilterByPeriod(orders, QuickFilter(st, cal, days, caption), cal) <==>
      o in orders && cal.startOfDay(cal.daysAgo(days)) <= Timestamp(o, cal.now) <= cal.endOfDay(cal.now)
  {
    var r := QuickFilter(st, cal, days, caption);
    assert cal.startOfDay(r.startDate.value) == cal.startOfDay(cal.daysAgo(days));
    assert cal.endOfDay(r.endDate.value) == cal.endOfDay(cal.now);
    FilterByPeriodMembership(orders, r, cal, o);
  }

  /** The date inputs do not clear the named period: picking both dates from the initial
      state leaves "daily" in place, and only the precedence of a range makes it idle. */
  lemma DateInputsKeepPeriod(a: int, b: int)
    requires a <= b
    ensures var st := ChangeEndDate(ChangeStartDate(InitialState(), Some(a)), Some(b));
      RangeActive(st) && st.period == Some("daily")
  {
  }

  /** Emptying the end-date input while a start after 1970 is set clears the start too,
      because `null < startDate` compares 0 with the start's instant. */
  lemma ClearingEndClearsStart(st: FilterState)
    requires st.startDate.Some? && st.startDate.value > 0
    ensures ChangeEndDate(st, None).startDate == None && ChangeEndDate(st, None).endDate == None
  {
  }
}
