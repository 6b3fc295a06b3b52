# Order-reporting engine of the restaurant dashboard, in Dafny

This project models the reporting logic in `src/pages/Dashboard.jsx` of the restaurant dashboard and proves what that logic computes. The engine has four parts.

- **Date/period filter** (`filteredOrdersByPeriod`). It keeps the fetched orders that fall in the active window.
  - Both dates set: the window is the inclusive day range.
  - Otherwise, a truthy period: the window is every instant strictly after the start of the current day, month or year.
  - With neither, every order passes.
- **Aggregation pass** (the `useEffect` body). One loop over the filtered orders and their line items. It accumulates:
  - the income, the cash/card/click buckets and the service amount;
  - the per-waiter dictionary and the per-dish dictionary;
  - the flat list of sold-item rows.

  It then sorts the waiters by commission, the rows by date and the dishes by units sold, and keeps the ten best sellers.
- **Derived views over the sold items**:
  - the category filter (`filteredSoldItems`);
  - the products tab (`aggregatedSoldItems`), which groups rows into products with totals, an average price and a distinct-order count;
  - the category picker list (`categories`).
- **Filter-state transitions**:
  - the quick-filter buttons;
  - the custom range;
  - the guards of the two date inputs;
  - the reset button.

## How the modules are laid out

| module | file | role |
|---|---|---|
| `Fallback` | `fallback.dfy` | JavaScript's `a \|\| b` on optional numbers and strings |
| `Sums`, `Sorting`, `Grouping` | `sums.dfy`, `sorting.dfy`, `grouping.dfy` | `reduce`-style sums, the stable `Array.prototype.sort`, and "dictionary keyed on first sight + `Object.values`" |
| `Orders` | `orders.dfy` | the raw order record and the fallback reads made of it |
| `PeriodFilter` | `period_filter.dfy` | the date/period filter |
| `FilterControls` | `filter_controls.dfy` | the filter-state transitions |
| `Aggregation` | `aggregation.dfy` | the aggregation pass, plus `ReportOf`, the report it must produce |
| `ReportFacts` | `report_facts.dfy` | what `ReportOf` means: sums, groups, orderings, bounds |
| `SoldViews` | `sold_views.dfy` | the three derived views |

The aggregation pass keeps the source's shape.
- `Aggregation.Aggregate` is a `while` loop over the orders.
- Each step is `Aggregation.CountOrder`, which calls:
  - `CountPayment` for the payment if-chain;
  - `CountWaiter` for the waiter dictionary;
  - `AddLineItems` for the inner loop over line items, whose body is `CountLineItem`.
- The two dictionaries are `map` values with a key sequence beside them. The key sequence records insertion order, which is what `Object.values` returns.
- Each loop step is proved to keep a plain equality invariant: the accumulators equal `AccumulatorsOf` of the orders seen so far.
- `Aggregate` is proved to return `ReportOf(orders, …)`.
- `ReportFacts` then proves what the report says about the orders.

`SoldViews.GroupProducts` and `SoldViews.AddProductRow` treat the product dictionary the same way.

Inputs and outputs:
- Timestamps are integers.
- The moment library's day and period boundaries arrive as a `Calendar` value.
- Money amounts and quantities are integers.
- Averages and percentages are exact `real` quotients.

## Model

| member | source | states |
|---|---|---|
| Orders.TotalFallback | src/pages/Dashboard.jsx:251 | an order's total is `final_total` when truthy, otherwise `total_price` when truthy, otherwise 0 (a zero final total falls back) |
| Orders.QuantityNeverZero | src/pages/Dashboard.jsx:284 | a line item's quantity is never 0; a missing or zero quantity counts as 1, so any record without a negative quantity counts at least 1 |
| Orders.CategoryNonEmpty | src/pages/Dashboard.jsx:291 | every item's category is non-empty, and it is "Boshqa" when both category fields are missing or empty |
| PeriodFilter.Keep | src/pages/Dashboard.jsx:166-177 | the kept orders are exactly the input orders whose instant lies in the window, and there are no more of them than input orders |
| PeriodFilter.KeptIndices | src/pages/Dashboard.jsx:166-177 | the kept positions are strictly increasing positions of the input, and a position is kept iff its order's instant lies in the window |
| PeriodFilter.KeepIsSelection | src/pages/Dashboard.jsx:157-213 | the filter result is the input at the kept positions, in input order: an order-preserving subsequence |
| PeriodFilter.FilterByPeriodMembership | src/pages/Dashboard.jsx:157-213 | an order passes iff it is an input order and: with both dates set, start-of-day(start) <= t <= end-of-day(end); else with a truthy period, t > period start; else always |
| PeriodFilter.NoFilterKeepsAll | src/pages/Dashboard.jsx:157-213 | with no range and no truthy period the result is the input itself |
| PeriodFilter.RangeOverridesPeriod | src/pages/Dashboard.jsx:163-185 | while both dates are set, the period value has no effect on the result |
| PeriodFilter.RangeBoundsInclusive | src/pages/Dashboard.jsx:163-168 | an order stamped exactly at the range's first day start or last day end passes |
| PeriodFilter.PeriodStartExcluded | src/pages/Dashboard.jsx:185-206 | an order stamped exactly at the period's start is filtered out |
| PeriodFilter.UnknownPeriodIsDaily | src/pages/Dashboard.jsx:189-201 | any period name other than daily/monthly/yearly starts at the start of today, like "daily" |
| FilterControls.QuickFilter | src/pages/Dashboard.jsx:75-82 | a quick filter sets start = start of the day `days` ago, end = end of today, the caption as highlight, and clears the period; with a sane calendar start <= end |
| FilterControls.ApplyDateRange | src/pages/Dashboard.jsx:93-97 | a custom range sets both dates and clears both the highlight and the period |
| FilterControls.ChangeStartDate | src/pages/Dashboard.jsx:910-916 | the start input takes the new start; it drops the end iff an end is set and the new start (null as 0) is after it; the dates stay ordered and nothing else changes |
| FilterControls.ChangeEndDate | src/pages/Dashboard.jsx:931-935 | the end input takes the new end; it drops the start iff a start is set and the new end (null as 0) is before it; the dates stay ordered and nothing else changes |
| FilterControls.Reset | src/pages/Dashboard.jsx:946-952 | the reset button returns the filter state to the dashboard's initial state: category "all", no dates, no highlight, period "daily" |
| FilterControls.QuickFilterWindow | src/pages/Dashboard.jsx:75-82 | after a quick filter an order passes iff its instant is between the start of the day `days` ago and the end of today |
| FilterControls.DateInputsKeepPeriod | src/pages/Dashboard.jsx:910-935 | choosing both dates through the inputs leaves the period "daily" in place; only the range's precedence makes it idle |
| FilterControls.ClearingEndClearsStart | src/pages/Dashboard.jsx:931-935 | emptying the end input while a start after instant 0 is set clears the start as well |
| Aggregation.WaiterMapKeys | src/pages/Dashboard.jsx:268-276 | the waiter dictionary has an entry exactly for the truthy waiter names that occur |
| Aggregation.WaiterMapEntry | src/pages/Dashboard.jsx:268-280 | a waiter's entry counts that waiter's orders and sums their totals and service amounts; a name without an entry has no orders |
| Aggregation.WaiterMapIsTally | src/pages/Dashboard.jsx:268-280 | every entry of the waiter dictionary is the tally of that waiter's orders, and its keys are the first-seen waiter names |
| Aggregation.StatsFor | src/pages/Dashboard.jsx:315-320 | one stat per listed name, in order, each that name's tally with its service percentage |
| Aggregation.WaiterValues | src/pages/Dashboard.jsx:315-320 | the loop over `Object.values(waiterStatsMap)` that adds the percentages returns `StatsFor` of the dictionary |
| Aggregation.DishMapKeys | src/pages/Dashboard.jsx:288-295 | the dish dictionary has an entry exactly for the item names (missing name as "undefined") that occur |
| Aggregation.DishMapEntry | src/pages/Dashboard.jsx:283-297 | a dish's entry takes name and category from the first row of its name and sums quantity and price × quantity over all its rows |
| Aggregation.DishMapIsGroup | src/pages/Dashboard.jsx:283-297 | every dish entry is the summary of the group of rows with its name |
| Aggregation.CountLineItem | src/pages/Dashboard.jsx:284-311 | one line item appends its row and updates the dish dictionary and key order exactly as the fold over the extended rows does |
| Aggregation.AddLineItems | src/pages/Dashboard.jsx:282-312 | the inner loop appends one row per line item of the order, in order, and leaves the dish dictionary equal to that of all rows so far |
| Aggregation.CountWaiter | src/pages/Dashboard.jsx:268-280 | the waiter step leaves the waiter dictionary and key order equal to those of the orders seen so far |
| Aggregation.CountPayment | src/pages/Dashboard.jsx:257-266 | the payment branch leaves the cash, card and click totals equal to the sums of each order's cash, card and click parts |
| Aggregation.CountOrder | src/pages/Dashboard.jsx:250-313 | one order's step turns the accumulators of the orders seen into those of the orders seen plus this one |
| Aggregation.Aggregate | src/pages/Dashboard.jsx:215-369 | the pass returns `ReportOf` the filtered orders: the empty report for no orders, otherwise the summary, the sorted waiter list, the rows newest first and the top ten dishes |
| ReportFacts.EmptyInputIsZero | src/pages/Dashboard.jsx:216-231 | with no filtered order every summary figure is 0 and the waiter, sold-item and popular-dish lists are empty |
| ReportFacts.AverageMeaning | src/pages/Dashboard.jsx:322 | the average order value times the order count is the income; it is 0 without orders |
| ReportFacts.GrowthMeaning | src/pages/Dashboard.jsx:325-330 | growth is 0 under a range; otherwise it times the number of orders outside the window is 100 × the window's count, and it is 100 × the count when none are outside |
| ReportFacts.SummaryMeaning | src/pages/Dashboard.jsx:240-341 | the summary holds the order count, the sum of the order totals, the sum of the service amounts, and the average and growth of those |
| ReportFacts.SingleMethodSettles | src/pages/Dashboard.jsx:257-262 | an order paid by cash, card or click puts its whole total into that bucket and nothing into the other two |
| ReportFacts.ClickOnlyFromClick | src/pages/Dashboard.jsx:257-266 | only click orders reach the click bucket; an order with neither a known method nor mixed details reaches no bucket |
| ReportFacts.BucketsCoverIncome | src/pages/Dashboard.jsx:254-266 | when every order is paid by one of the three methods, cash + card + click equals the income |
| ReportFacts.ReportBucketsCoverIncome | src/pages/Dashboard.jsx:332-341 | the same in the report's summary |
| ReportFacts.WaiterTotalsAddUp | src/pages/Dashboard.jsx:268-280 | the waiters' order counts add up to the number of orders with a truthy waiter name, their sales and commissions to those orders' totals and service amounts |
| ReportFacts.WaiterListed | src/pages/Dashboard.jsx:343-347 | every waiter with an order appears in the report with the tally of all their orders |
| ReportFacts.ListedWaiter | src/pages/Dashboard.jsx:268-280 | every listed waiter has a non-empty name, at least one order, and the tally of exactly their orders |
| ReportFacts.WaiterEntries | src/pages/Dashboard.jsx:343-347 | the waiter list is sorted by commission, highest first, and holds one entry per distinct truthy waiter name, each that waiter's tally |
| ReportFacts.ServiceShareMeaning | src/pages/Dashboard.jsx:316-319 | the share is 0 when the total service is not positive; otherwise it times the total service is 100 × the commission, and it lies in 0..100 when 0 <= commission <= total |
| ReportFacts.ServicePercentages | src/pages/Dashboard.jsx:315-320 | with no positive service total every percentage is 0; with non-negative service amounts every percentage is between 0 and 100 |
| ReportFacts.OneRowPerLineItem | src/pages/Dashboard.jsx:282-312 | there is exactly one sold-item row per (order, line item) pair |
| ReportFacts.RowArithmetic | src/pages/Dashboard.jsx:284-308 | every row's quantity is non-zero and its subtotal is price × quantity |
| ReportFacts.SoldItemsNewestFirst | src/pages/Dashboard.jsx:349-351 | the report's rows are a permutation of all rows, sorted by date, newest first, one per line item, and rows of equal date keep their collection order |
| ReportFacts.DishTotalsAddUp | src/pages/Dashboard.jsx:296-297 | the dishes' units sold add up to the rows' quantities, their revenues to the rows' subtotals |
| ReportFacts.DishAt | src/pages/Dashboard.jsx:283-297 | the i-th dish is the summary of the rows of the i-th first-seen item name, and its name reads as that item name |
| ReportFacts.DishEntries | src/pages/Dashboard.jsx:283-297 | one dish per distinct item name, in first-sold order, and every sold name has its dish; each dish's sold and revenue sum exactly the rows of its name, and name and category come from its first row |
| ReportFacts.FirstSeenCategoryWins | src/pages/Dashboard.jsx:288-295 | the first row of a name fixes its dish's name and category; later rows of the name only add to the counts |
| ReportFacts.TopTenIsTop | src/pages/Dashboard.jsx:353-357 | the top ten has min(10, n) dishes, sorted by units sold, drawn from the dishes, and no dish left out sold more than a listed one |
| ReportFacts.PopularDishesAreTop | src/pages/Dashboard.jsx:353-357 | the report's popular dishes are at most ten, sorted by units sold, taken from the dish list, with no dish left out having sold more than a listed one |
| Sorting.SortDesc | src/pages/Dashboard.jsx:345 | the numeric sort returns a permutation of its input |
| Sorting.SortDescSorted | src/pages/Dashboard.jsx:345 | the numeric sort's result is ordered by descending key |
| Sorting.SortDescStable | src/pages/Dashboard.jsx:350 | elements with equal keys keep their relative order through the sort |
| Sorting.SortLex | src/pages/Dashboard.jsx:422 | the default string sort returns a permutation of its input |
| Sorting.SortLexSorted | src/pages/Dashboard.jsx:422 | the default string sort's result is in ascending lexicographic order |
| Grouping.GroupMembers | src/pages/Dashboard.jsx:378 | the elements kept for a key are exactly the input elements with that key |
| Grouping.Keys | src/pages/Dashboard.jsx:421 | the collected keys are distinct |
| Grouping.KeysAreGroups | src/pages/Dashboard.jsx:421 | a key is collected iff some element has it |
| Grouping.Positions | src/pages/Dashboard.jsx:378 | the positions of the elements with a given key, strictly increasing, each position present iff its element has the key |
| Grouping.GroupIsSelection | src/pages/Dashboard.jsx:378 | a group is the input read at those positions: `filter` keeps order and repeats an element as often as it occurs |
| Grouping.SameClassesSameFirsts | src/pages/Dashboard.jsx:388-399 | two keys that split the elements into the same classes create their dictionary entries at the same elements |
| Grouping.GroupsAgree | src/pages/Dashboard.jsx:388-399 | two keys that select the same elements select the same group |
| Grouping.PartitionSum | src/pages/Dashboard.jsx:250-313 | summing a measure group by group over the collected keys gives the sum over all keyed elements |
| SoldViews.FilterSoldItemsMeaning | src/pages/Dashboard.jsx:371-379 | under "all" the rows are unchanged; otherwise the result is the rows at the increasing positions whose category equals the selection exactly, in order and with repeats, so a row is kept iff its category matches |
| SoldViews.ProductMapKeys | src/pages/Dashboard.jsx:387-399 | the product dictionary has an entry exactly for the keys that occur |
| SoldViews.ProductMapEntry | src/pages/Dashboard.jsx:387-404 | a product's entry takes name and category from its first row and sums quantity, subtotal and the set of order ids over all its rows |
| SoldViews.AddProductRow | src/pages/Dashboard.jsx:387-404 | one row's step leaves the product dictionary and key order equal to those of the rows seen so far |
| SoldViews.GroupProducts | src/pages/Dashboard.jsx:385-410 | the grouping loop and the `map` that follows return one finalized product per key, in first-seen order |
| SoldViews.AggregateSoldItems | src/pages/Dashboard.jsx:382-418 | the products view, grouping by the string key `${itemName}-${category}`: nothing without rows, the category's products unsorted, or all products sorted by total quantity |
| SoldViews.ProductTotalsAddUp | src/pages/Dashboard.jsx:398-399 | the products' quantities and revenues add up to the rows' quantities and subtotals |
| SoldViews.ProductAt | src/pages/Dashboard.jsx:385-410 | for any key, the i-th product stands for exactly the rows of the i-th first-seen key: name and category of its first row, their sums, and its order count the number of distinct order ids among them, between 1 and the row count |
| SoldViews.SourceKeyAt | src/pages/Dashboard.jsx:388-391 | grouping by the string key, the i-th product row carries the i-th first-seen key string |
| SoldViews.SourceProducts | src/pages/Dashboard.jsx:385-410 | grouping by the string key: one product per distinct key string, in first-seen order, carrying that key; each stands for exactly the rows with its key string, with their sums and distinct order ids, the count between 1 and the row count |
| SoldViews.SourceRowsCounted | src/pages/Dashboard.jsx:387-399 | grouping by the string key, every row is counted in the product whose key is the row's key string |
| SoldViews.PairProducts | src/pages/Dashboard.jsx:385-410 | grouping by the pair: one product per distinct (item name, category) pair, in first-seen order; each product's totals sum exactly the rows with its pair, its order count is the number of distinct order ids among them, between 1 and the row count, and every row is counted in the product of its pair |
| SoldViews.OrderIdsAtMost | src/pages/Dashboard.jsx:400 | a group's distinct order ids are no more than its rows |
| SoldViews.AveragePriceDefined | src/pages/Dashboard.jsx:407 | when every quantity is at least 1, every product's total quantity is at least 1 and its average price is revenue / quantity |
| SoldViews.AveragePriceMeaning | src/pages/Dashboard.jsx:407 | the average price is missing iff the total quantity is 0; otherwise it times the quantity gives the revenue |
| SoldViews.AggregatedSoldItemsMeaning | src/pages/Dashboard.jsx:412-417 | grouping by the string key: under "all" the view is a permutation of all products sorted by total quantity, highest first; under a category it is the products at the increasing positions whose category matches, in grouping order |
| SoldViews.SourceKeyMergesProducts | src/pages/Dashboard.jsx:388 | grouping by the string key merges ("a-b", "c") and ("a", "b-c") into one product, where grouping by the pair keeps two |
| SoldViews.SameClassesSameProducts | src/pages/Dashboard.jsx:385-410 | two keys that split the rows into the same classes give the same product rows in the same order |
| SoldViews.ShorterNameDiffers | src/pages/Dashboard.jsx:388 | a key string whose name part has no "-" differs from every key string with a longer name part |
| SoldViews.SourceKeyInjective | src/pages/Dashboard.jsx:388 | for item names without "-", two rows share the string key iff they share item name and category |
| SoldViews.SourceKeyAgreesWithPair | src/pages/Dashboard.jsx:382-418 | when every row has an item name and none contains "-", the products view as written equals the pair-keyed one, product list and view alike |
| SoldViews.CategoriesMeaning | src/pages/Dashboard.jsx:420-424 | the picker list is "all" followed by the distinct categories of the rows, each once, in ascending order, and nothing else |
| SoldViews.CategoryListed | src/pages/Dashboard.jsx:422 | a category is in the sorted list iff some row has it |

## Findings

| source | as written | input that shows it | evidently intended | confidence | as-written member | corrected member |
|---|---|---|---|---|---|---|
| src/pages/Dashboard.jsx:388 | products are grouped by the string `${itemName}-${category}` | a row of item "a-b" in category "c" and a row of item "a" in category "b-c" share the key "a-b-c"; they are summed into one product shown as "a-b" in "c" | one product per (item name, category) pair | medium; not executed | SoldViews.SourceKeyMergesProducts | SoldViews.PairProducts |

`SoldViews.SourceKey` is the key as written and `SoldViews.PairKey` the pair.
- The products view of the model, `SoldViews.AggregatedSoldItems` (computed by `SoldViews.AggregateSoldItems`), groups by the key as written. So it does what the source does, collision included.
- The corrected view is `SoldViews.PairSoldItems`, which groups by the pair. `SoldViews.PairProducts` states what it shows.
- `SoldViews.SourceKeyAgreesWithPair` proves that the two views coincide unless an item name is missing or contains "-".

## Left out

- The network fetch, login, the HTTP interceptors and the token in `localStorage` are I/O. The model starts from the fetched orders; their number is a parameter (`allCount`).
- The `setTimeout(…, 50)` deferral and the `processing` flag are not modelled. The model computes each report at once, from the orders in the window.
- The effect at src/pages/Dashboard.jsx:215-369 returns no cleanup, so a pending timer is never cancelled. If the window empties within 50 ms of a non-empty one, the empty branch (216-231) clears the stats. The older timer then fires and writes the stale report over them. The model does not capture this stale overwrite.
- Calendar arithmetic (`startOf`, `endOf`, `subtract`) belongs to the moment library. Its results come in through `Calendar`; `SaneCalendar` states the few facts the proofs rely on.
- `isBetween(…, "[]")` and `isAfter` are modelled as integer comparisons on instants. Invalid date strings are not modelled: every present date is an instant.
- Some descriptions of this dashboard give the order date precedence over the creation time. The code reads `createdAt || order_date` (src/pages/Dashboard.jsx:167, 204, 303), and the model follows the code.
- Some descriptions also say that choosing dates clears the named period. The date inputs do not do so in the code; `FilterControls.DateInputsKeepPeriod` records this.
- `applyDateRangeFilter` is modelled (`FilterControls.ApplyDateRange`), but nothing in the component calls it.
- JavaScript numbers are doubles. Amounts, quantities and prices are modelled as unbounded integers, with no rounding and no overflow.
- `toFixed(1)` and `toFixed(2)` produce rounded strings. The model keeps the exact `real` quotient for the service percentage, the growth rate and the average price.
- AverageOrderValue and GrowthRate have no contract of their own. Their meaning is stated by `ReportFacts.AverageMeaning` and `ReportFacts.GrowthMeaning`.
- The product average price for a zero total quantity is `None`; the source shows `NaN` or `Infinity`.
- The row date sort treats a row without a date as instant 0. In the source, `new Date(undefined)` gives `NaN`, and sorting with a `NaN` comparison is implementation-defined.
- The default string sort compares characters by code point. JavaScript compares UTF-16 code units, which differs only outside the Basic Multilingual Plane.
- `Object.values` lists integer-like keys (such as an item named "7") first, in numeric order, before the other keys. The model keeps plain insertion order. This changes the relative order of ties in the sorted waiter and dish lists. Among dishes tied at the tenth place, it also changes which ones survive `.slice(0, 10)` (src/pages/Dashboard.jsx:356).
- Orders.Timestamp, Fallback.KeyText: a field that is JSON `null` is read as absent, like a missing field.
  - In the source, an order with no `createdAt` and `order_date: null` gets `moment(null)`, an invalid date. Both filter branches drop it (src/pages/Dashboard.jsx:168, 205). The model reads the order as `now` and keeps it under a period, though not under a range ending before `now`.
  - A `null` item name keys its dish as "null" in the source (src/pages/Dashboard.jsx:288), where the model uses "undefined".
- Keys such as `__proto__` that collide with inherited object members are not modelled.
- Row keys built with `Math.random()`, the waiters' `key: index`, `console.log` and `message.*` notifications are presentation.
- Sorting in place is modelled on values: `SortDesc` returns the sorted sequence. Nothing else holds a reference to the arrays being sorted, so aliasing plays no part.
- The per-entry mutation of `aggregatedMap[key]` and of `waiterStatsMap`/`dishStatsMap` entries is modelled as replacing the entry in a `map`.
