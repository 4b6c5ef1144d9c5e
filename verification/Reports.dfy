/**
 The day reports of src/reports/reports.service.ts. An instant is a number of milliseconds since the epoch,
 a UTC day a number of days since the epoch; the calendar text of a day is not modelled.
 */
module Reports {
  import opened Basics
  import opened OrderStatus

  type Instant = int
  type Day = int

  const DAY_MS: int := 86400000

  /** The columns of an order row the reports read. */
  datatype Ticket = Ticket(restaurant: nat, status: Status, totalCents: int, createdAt: Instant)

  datatype Summary = Summary(totalSalesCents: int, ticketCount: nat, averageTicketCents: int)

  /** A report row: a day and what is reported for it. */
  datatype Dated<T> = Dated(date: Day, value: T)

  predicate IsSale(s: Status) {
    s == Completed || s == Confirmed
  }

  /** The UTC day an instant falls on. */
  function DayOf(t: Instant): Day {
    t / DAY_MS
  }

  function DayStart(d: Day): Instant {
    d * DAY_MS
  }

  /** The exclusive end dayRange uses: the day's last millisecond. */
  function DayLimit(d: Day): Instant {
    d * DAY_MS + DAY_MS - 1
  }

  /** The sale orders of a restaurant created in [gte, lt). */
  function Sales(orders: seq<Ticket>, restaurant: nat, gte: Instant, lt: Instant): seq<Ticket> {
    if orders == [] then [] else
    var last := orders[|orders| - 1];
    Sales(orders[..|orders| - 1], restaurant, gte, lt)
    + if last.restaurant == restaurant && IsSale(last.status) && gte <= last.createdAt < lt then [last] else []
  }

  function Total(tickets: seq<Ticket>): int {
    if tickets == [] then 0 else Total(tickets[..|tickets| - 1]) + tickets[|tickets| - 1].totalCents
  }

  function TotalOn(tickets: seq<Ticket>, d: Day): int {
    if tickets == [] then 0 else
    TotalOn(tickets[..|tickets| - 1], d)
    + if DayOf(tickets[|tickets| - 1].createdAt) == d then tickets[|tickets| - 1].totalCents else 0
  }

  function CountOn(tickets: seq<Ticket>, d: Day): nat {
    if tickets == [] then 0 else
    CountOn(tickets[..|tickets| - 1], d) + if DayOf(tickets[|tickets| - 1].createdAt) == d then 1 else 0
  }

  function CountAt(tickets: seq<Ticket>, t: Instant): nat {
    if tickets == [] then 0 else
    CountAt(tickets[..|tickets| - 1], t) + if tickets[|tickets| - 1].createdAt == t then 1 else 0
  }

  function Summarize(total: int, count: nat): Summary {
    Summary(total, count, if count > 0 then RoundRatio(total, count) else 0)
  }

  /** getDailySummary: an aggregate over the day's range. */
  function GetDailySummary(orders: seq<Ticket>, restaurant: nat, date: Day): Summary {
    var sales := Sales(orders, restaurant, DayStart(date), DayLimit(date));
    Summarize(Total(sales), |sales|)
  }

  /** The sales of a range of days, from the first day's start to the last day's limit. */
  function RangeSales(orders: seq<Ticket>, restaurant: nat, startDate: Day, endDate: Day): seq<Ticket> {
    Sales(orders, restaurant, DayStart(startDate), DayLimit(endDate))
  }

  // ---------- What the range reports are ----------

  predicate Ascending(days: seq<Day>) {
    forall i, j :: 0 <= i < j < |days| ==> days[i] < days[j]
  }

  function Days<T>(entries: seq<Dated<T>>): (days: seq<Day>)
    ensures |days| == |entries|
    ensures forall i :: 0 <= i < |entries| ==> days[i] == entries[i].date
  {
    seq(|entries|, i requires 0 <= i < |entries| => entries[i].date)
  }

  /** One entry per day with a sale, in strictly ascending order. */
  ghost predicate IsPerDay<T>(entries: seq<Dated<T>>, sales: seq<Ticket>) {
    && Ascending(Days(entries))
    && forall d :: d in Days(entries) <==> CountOn(sales, d) > 0
  }

  /** The range summary: each day with that day's own figures. */
  ghost predicate IsRangeSummary(entries: seq<Dated<Summary>>, sales: seq<Ticket>) {
    && IsPerDay(entries, sales)
    && forall e :: e in entries ==> e.value == Summarize(TotalOn(sales, e.date), CountOn(sales, e.date))
  }

  ghost predicate IsCountByDay(entries: seq<Dated<nat>>, sales: seq<Ticket>) {
    && IsPerDay(entries, sales)
    && forall e :: e in entries ==> e.value == CountOn(sales, e.date)
  }

  // ---------- Sorting by date, as the engine's own sort does ----------

  function Insert<T>(e: Dated<T>, sorted: seq<Dated<T>>): seq<Dated<T>> {
    if sorted == [] || e.date <= sorted[0].date then [e] + sorted else [sorted[0]] + Insert(e, sorted[1..])
  }

  function SortByDate<T>(entries: seq<Dated<T>>): seq<Dated<T>> {
    if entries == [] then [] else Insert(entries[0], SortByDate(entries[1..]))
  }

  predicate DistinctDays<T>(entries: seq<Dated<T>>) {
    forall i, j :: 0 <= i < j < |entries| ==> entries[i].date != entries[j].date
  }

  predicate AllAfter<T>(d: Day, entries: seq<Dated<T>>) {
    forall i :: 0 <= i < |entries| ==> d < entries[i].date
  }

  predicate InOrder<T>(entries: seq<Dated<T>>) {
    forall i, j :: 0 <= i < j < |entries| ==> entries[i].date < entries[j].date
  }

  predicate NoneOn<T>(d: Day, entries: seq<Dated<T>>) {
    forall i :: 0 <= i < |entries| ==> entries[i].date != d
  }

  lemma {:induction false} InsertKeeps<T>(e: Dated<T>, sorted: seq<Dated<T>>)
    ensures multiset(Insert(e, sorted)) == multiset(sorted) + multiset{e}
  {
    if sorted != [] && e.date > sorted[0].date {
      InsertKeeps(e, sorted[1..]);
      assert sorted == [sorted[0]] + sorted[1..];
    }
  }

  lemma {:induction false} InsertAfter<T>(d: Day, e: Dated<T>, sorted: seq<Dated<T>>)
    requires d < e.date && AllAfter(d, sorted)
    ensures AllAfter(d, Insert(e, sorted))
  {
    if sorted != [] && e.date > sorted[0].date {
      InsertAfter(d, e, sorted[1..]);
    }
  }

  lemma {:induction false} InsertSorts<T>(e: Dated<T>, sorted: seq<Dated<T>>)
    requires InOrder(sorted) && NoneOn(e.date, sorted)
    ensures InOrder(Insert(e, sorted))
  {
    if sorted != [] && e.date > sorted[0].date {
      InsertSorts(e, sorted[1..]);
      InsertAfter(sorted[0].date, e, sorted[1..]);
    }
  }

  lemma {:induction false} SortSorts<T>(entries: seq<Dated<T>>)
    requires DistinctDays(entries)
    ensures InOrder(SortByDate(entries))
    ensures multiset(SortByDate(entries)) == multiset(entries)
  {
    if entries != [] {
      var rest := entries[1..];
      var sorted := SortByDate(rest);
      assert entries == [entries[0]] + rest;
      SortSorts(rest);
      forall i | 0 <= i < |sorted|
        ensures sorted[i].date != entries[0].date
      {
        assert sorted[i] in multiset(sorted);
        assert sorted[i] in multiset(rest);
      }
      InsertKeeps(entries[0], sorted);
      InsertSorts(entries[0], sorted);
    }
  }

  lemma DaysByMembers<T(!new)>(a: seq<Dated<T>>, b: seq<Dated<T>>)
    requires forall x :: x in a <==> x in b
    ensures forall d :: d in Days(a) <==> d in Days(b)
  {
    forall i | 0 <= i < |a|
      ensures a[i].date in Days(b)
    {
      assert a[i] in a;
      var k :| 0 <= k < |b| && b[k] == a[i];
      assert Days(b)[k] == a[i].date;
    }
    forall i | 0 <= i < |b|
      ensures b[i].date in Days(a)
    {
      assert b[i] in b;
      var k :| 0 <= k < |a| && a[k] == b[i];
      assert Days(a)[k] == b[i].date;
    }
  }

  // ---------- The range reports ----------

  /** A key of the insertion-ordered map: present exactly when its day has a sale. */
  ghost predicate IsKeyOrder(keys: seq<Day>, sales: seq<Ticket>) {
    && (forall i, j :: 0 <= i < j < |keys| ==> keys[i] != keys[j])
    && forall d :: d in keys <==> CountOn(sales, d) > 0
  }

  lemma SortedIsPerDay<T(!new)>(entries: seq<Dated<T>>, keys: seq<Day>, sales: seq<Ticket>)
    requires Days(entries) == keys && IsKeyOrder(keys, sales)
    ensures IsPerDay(SortByDate(entries), sales)
    ensures forall x :: x in SortByDate(entries) <==> x in entries
  {
    assert forall i :: 0 <= i < |entries| ==> Days(entries)[i] == keys[i];
    SortSorts(entries);
    var sorted := SortByDate(entries);
    forall x
      ensures x in sorted <==> x in entries
    {
      assert x in sorted <==> x in multiset(sorted);
      assert x in entries <==> x in multiset(entries);
    }
    DaysByMembers(entries, sorted);
  }

  lemma CountSplit(sales: seq<Ticket>, i: nat, d: Day)
    requires i < |sales|
    ensures CountOn(sales[..i + 1], d) == CountOn(sales[..i], d) + if DayOf(sales[i].createdAt) == d then 1 else 0
    ensures TotalOn(sales[..i + 1], d)
         == TotalOn(sales[..i], d) + if DayOf(sales[i].createdAt) == d then sales[i].totalCents else 0
  {
    assert sales[..i + 1][..i] == sales[..i];
  }

  /** The keys after one more sale: its day is appended if it is new. */
  function WithDay(keys: seq<Day>, day: Day): seq<Day> {
    if day in keys then keys else keys + [day]
  }

  lemma KeyOrderNext(keys: seq<Day>, sales: seq<Ticket>, i: nat)
    requires i < |sales| && IsKeyOrder(keys, sales[..i])
    ensures IsKeyOrder(WithDay(keys, DayOf(sales[i].createdAt)), sales[..i + 1])
  {
    forall d
      ensures d in WithDay(keys, DayOf(sales[i].createdAt)) <==> CountOn(sales[..i + 1], d) > 0
    {
      CountSplit(sales, i, d);
    }
  }

  lemma {:induction false} NothingOn(sales: seq<Ticket>, d: Day)
    requires CountOn(sales, d) == 0
    ensures TotalOn(sales, d) == 0
  {
    if sales != [] {
      NothingOn(sales[..|sales| - 1], d);
    }
  }

  /** The running totals and counts of the days that had a sale. */
  ghost predicate IsTally(byDay: map<Day, (int, nat)>, sales: seq<Ticket>) {
    forall d :: if CountOn(sales, d) > 0 then d in byDay && byDay[d] == (TotalOn(sales, d), CountOn(sales, d))
                else d !in byDay
  }

  function Tallied(byDay: map<Day, (int, nat)>, day: Day, cents: int): map<Day, (int, nat)> {
    var entry := if day in byDay then byDay[day] else (0, 0);
    byDay[day := (entry.0 + cents, entry.1 + 1)]
  }

  lemma TallyNext(byDay: map<Day, (int, nat)>, sales: seq<Ticket>, i: nat)
    requires i < |sales| && IsTally(byDay, sales[..i])
    ensures IsTally(Tallied(byDay, DayOf(sales[i].createdAt), sales[i].totalCents), sales[..i + 1])
  {
    var day := DayOf(sales[i].createdAt);
    var after := Tallied(byDay, day, sales[i].totalCents);
    if CountOn(sales[..i], day) == 0 {
      NothingOn(sales[..i], day);
    }
    forall d
      ensures if CountOn(sales[..i + 1], d) > 0
              then d in after && after[d] == (TotalOn(sales[..i + 1], d), CountOn(sales[..i + 1], d))
              else d !in after
    {
      CountSplit(sales, i, d);
    }
  }

  /** The pass over the sales: a map from day to running total and count, its keys in insertion order. */
  method FillByDay(sales: seq<Ticket>) returns (keys: seq<Day>, byDay: map<Day, (int, nat)>)
    ensures IsKeyOrder(keys, sales) && IsTally(byDay, sales)
  {
    keys, byDay := [], map[];
    for i := 0 to |sales|
      invariant IsKeyOrder(keys, sales[..i]) && IsTally(byDay, sales[..i])
    {
      KeyOrderNext(keys, sales, i);
      TallyNext(byDay, sales, i);
      var day := DayOf(sales[i].createdAt);
      assert day in keys <==> CountOn(sales[..i], day) > 0;
      var entry := if day in byDay then byDay[day] else (0, 0);
      if day !in byDay {
        keys := keys + [day];
      }
      byDay := byDay[day := (entry.0 + sales[i].totalCents, entry.1 + 1)];
    }
    assert sales[..|sales|] == sales;
  }

  /** getDailySummaryRange: fill the map, walk its keys in insertion order, then sort the result in place. */
  method GetDailySummaryRange(orders: seq<Ticket>, restaurant: nat, startDate: Day, endDate: Day)
    returns (result: seq<Dated<Summary>>)
    ensures IsRangeSummary(result, RangeSales(orders, restaurant, startDate, endDate))
  {
    var sales := RangeSales(orders, restaurant, startDate, endDate);
    var keys, byDay := FillByDay(sales);
    result := [];
    for i := 0 to |keys|
      invariant Days(result) == keys[..i]
      invariant forall e :: e in result ==> e.value == Summarize(TotalOn(sales, e.date), CountOn(sales, e.date))
    {
      assert keys[i] in keys;
      assert CountOn(sales, keys[i]) > 0;
      var data := byDay[keys[i]];
      result := result + [Dated(keys[i], Summary(data.0, data.1, RoundRatio(data.0, data.1)))];
    }
    SortedIsPerDay(result, keys, sales);
    result := SortByDate(result);
  }

  ghost predicate IsCounter(byDay: map<Day, nat>, sales: seq<Ticket>) {
    forall d :: if CountOn(sales, d) > 0 then d in byDay && byDay[d] == CountOn(sales, d) else d !in byDay
  }

  lemma CounterNext(byDay: map<Day, nat>, sales: seq<Ticket>, i: nat)
    requires i < |sales| && IsCounter(byDay, sales[..i])
    ensures var day := DayOf(sales[i].createdAt);
            IsCounter(byDay[day := (if day in byDay then byDay[day] else 0) + 1], sales[..i + 1])
  {
    var day := DayOf(sales[i].createdAt);
    var after := byDay[day := (if day in byDay then byDay[day] else 0) + 1];
    forall d
      ensures if CountOn(sales[..i + 1], d) > 0 then d in after && after[d] == CountOn(sales[..i + 1], d)
              else d !in after
    {
      CountSplit(sales, i, d);
    }
  }

  /** getTicketCountByDay: the same pass with a bare counter. */
  method GetTicketCountByDay(orders: seq<Ticket>, restaurant: nat, startDate: Day, endDate: Day)
    returns (result: seq<Dated<nat>>)
    ensures IsCountByDay(result, RangeSales(orders, restaurant, startDate, endDate))
  {
    var sales := RangeSales(orders, restaurant, startDate, endDate);
    var keys: seq<Day>, byDay: map<Day, nat> := [], map[];
    for i := 0 to |sales|
      invariant IsKeyOrder(keys, sales[..i]) && IsCounter(byDay, sales[..i])
    {
      KeyOrderNext(keys, sales, i);
      CounterNext(byDay, sales, i);
      var day := DayOf(sales[i].createdAt);
      assert day in keys <==> CountOn(sales[..i], day) > 0;
      if day !in byDay {
        keys := keys + [day];
      }
      byDay := byDay[day := (if day in byDay then byDay[day] else 0) + 1];
    }
    assert sales[..|sales|] == sales;
    result := [];
    for i := 0 to |keys|
      invariant Days(result) == keys[..i]
      invariant forall e :: e in result ==> e.value == CountOn(sales, e.date)
    {
      assert keys[i] in keys;
      assert CountOn(sales, keys[i]) > 0;
      result := result + [Dated(keys[i], byDay[keys[i]])];
    }
    SortedIsPerDay(result, keys, sales);
    result := SortByDate(result);
  }

  // ---------- Conservation ----------

  function SumTotals(entries: seq<Dated<Summary>>): int {
    if entries == [] then 0 else SumTotals(entries[..|entries| - 1]) + entries[|entries| - 1].value.totalSalesCents
  }

  function SumCounts(entries: seq<Dated<Summary>>): int {
    if entries == [] then 0 else SumCounts(entries[..|entries| - 1]) + entries[|entries| - 1].value.ticketCount
  }

  function TotalOver(days: seq<Day>, sales: seq<Ticket>): int {
    if days == [] then 0 else TotalOver(days[..|days| - 1], sales) + TotalOn(sales, days[|days| - 1])
  }

  function CountOver(days: seq<Day>, sales: seq<Ticket>): int {
    if days == [] then 0 else CountOver(days[..|days| - 1], sales) + CountOn(sales, days[|days| - 1])
  }

  /** One more sale adds its amount once if its day is listed, and nothing otherwise. */
  lemma {:induction false} OneMoreSale(days: seq<Day>, sales: seq<Ticket>, t: Ticket)
    requires Ascending(days)
    ensures TotalOver(days, sales + [t])
         == TotalOver(days, sales) + if DayOf(t.createdAt) in days then t.totalCents else 0
    ensures CountOver(days, sales + [t]) == CountOver(days, sales) + if DayOf(t.createdAt) in days then 1 else 0
  {
    if days != [] {
      var front, last := days[..|days| - 1], days[|days| - 1];
      assert days == front + [last];
      assert (sales + [t])[..|sales|] == sales;
      assert last !in front;
      OneMoreSale(front, sales, t);
    }
  }

  lemma {:induction false} NoSales(days: seq<Day>)
    ensures TotalOver(days, []) == 0 && CountOver(days, []) == 0
  {
    if days != [] {
      NoSales(days[..|days| - 1]);
    }
  }

  lemma {:induction false} DaysPartitionSales(days: seq<Day>, sales: seq<Ticket>)
    requires Ascending(days) && forall t :: t in sales ==> DayOf(t.createdAt) in days
    ensures TotalOver(days, sales) == Total(sales)
    ensures CountOver(days, sales) == |sales|
  {
    if sales == [] {
      NoSales(days);
    } else {
      var front, last := sales[..|sales| - 1], sales[|sales| - 1];
      assert sales == front + [last];
      DaysPartitionSales(days, front);
      OneMoreSale(days, front, last);
    }
  }

  lemma {:induction false} EntriesAddUp(entries: seq<Dated<Summary>>, sales: seq<Ticket>)
    requires forall e :: e in entries ==> e.value == Summarize(TotalOn(sales, e.date), CountOn(sales, e.date))
    ensures SumTotals(entries) == TotalOver(Days(entries), sales)
    ensures SumCounts(entries) == CountOver(Days(entries), sales)
  {
    if entries != [] {
      var front := entries[..|entries| - 1];
      assert Days(entries)[..|entries| - 1] == Days(front);
      EntriesAddUp(front, sales);
    }
  }

  lemma {:induction false} SaleDayCounted(sales: seq<Ticket>, t: Ticket)
    requires t in sales
    ensures CountOn(sales, DayOf(t.createdAt)) > 0
  {
    if t != sales[|sales| - 1] {
      SaleDayCounted(sales[..|sales| - 1], t);
    }
  }

  function Cents(): Ticket -> int {
    (t: Ticket) => t.totalCents
  }

  lemma {:induction false} TotalIsSum(tickets: seq<Ticket>)
    ensures Total(tickets) == Sum(tickets, Cents())
  {
    if tickets != [] {
      TotalIsSum(tickets[..|tickets| - 1]);
    }
  }

  /** The amount of a ticket list does not depend on its order. */
  lemma TotalIgnoresOrder(a: seq<Ticket>, b: seq<Ticket>)
    requires multiset(a) == multiset(b)
    ensures Total(a) == Total(b) && |a| == |b|
  {
    TotalIsSum(a);
    TotalIsSum(b);
    SumIgnoresOrder(a, b, Cents());
  }

  /** getClosedTickets: the range's sales, in whatever order the database lists them. */
  predicate IsClosedTickets(tickets: seq<Ticket>, orders: seq<Ticket>, restaurant: nat, startDate: Day, endDate: Day) {
    multiset(tickets) == multiset(RangeSales(orders, restaurant, startDate, endDate))
  }

  /** The range summary adds up to the closed tickets of the same range, in money and in number. */
  lemma SummaryConservesSales(
    entries: seq<Dated<Summary>>, tickets: seq<Ticket>,
    orders: seq<Ticket>, restaurant: nat, startDate: Day, endDate: Day)
    requires IsRangeSummary(entries, RangeSales(orders, restaurant, startDate, endDate))
    requires IsClosedTickets(tickets, orders, restaurant, startDate, endDate)
    ensures SumTotals(entries) == Total(tickets)
    ensures SumCounts(entries) == |tickets|
  {
    var sales := RangeSales(orders, restaurant, startDate, endDate);
    forall t | t in sales
      ensures DayOf(t.createdAt) in Days(entries)
    {
      SaleDayCounted(sales, t);
    }
    EntriesAddUp(entries, sales);
    DaysPartitionSales(Days(entries), sales);
    TotalIgnoresOrder(tickets, sales);
  }

  // ---------- Which orders a report counts ----------

  /** A sale of the restaurant: a completed or confirmed order, and no other. */
  predicate Sold(t: Ticket, restaurant: nat) {
    t.restaurant == restaurant && (t.status == Completed || t.status == Confirmed)
  }

  /** The sales are exactly the orders sold in the interval, each once. */
  lemma {:induction false} SalesExactly(orders: seq<Ticket>, restaurant: nat, gte: Instant, lt: Instant, t: Ticket)
    ensures multiset(Sales(orders, restaurant, gte, lt))[t]
         == if Sold(t, restaurant) && gte <= t.createdAt < lt then multiset(orders)[t] else 0
  {
    if orders != [] {
      var front, last := orders[..|orders| - 1], orders[|orders| - 1];
      SalesExactly(front, restaurant, gte, lt, t);
      assert orders == front + [last];
    }
  }

  lemma {:induction false} SalesAddUp(orders: seq<Ticket>, restaurant: nat, gte: Instant, lt: Instant)
    ensures Total(Sales(orders, restaurant, gte, lt)) == Sum(orders, (t: Ticket) =>
              if Sold(t, restaurant) && gte <= t.createdAt < lt then t.totalCents else 0)
    ensures |Sales(orders, restaurant, gte, lt)| == Sum(orders, (t: Ticket) =>
              if Sold(t, restaurant) && gte <= t.createdAt < lt then 1 else 0)
  {
    if orders != [] {
      var front, last := orders[..|orders| - 1], orders[|orders| - 1];
      SalesAddUp(front, restaurant, gte, lt);
      var sales := Sales(front, restaurant, gte, lt);
      assert (sales + [last])[..|sales|] == sales && sales + [] == sales;
    }
  }

  lemma {:induction false} DayAddsUp(orders: seq<Ticket>, restaurant: nat, gte: Instant, lt: Instant, d: Day)
    ensures TotalOn(Sales(orders, restaurant, gte, lt), d) == Sum(orders, (t: Ticket) =>
              if Sold(t, restaurant) && gte <= t.createdAt < lt && t.createdAt / 86400000 == d then t.totalCents else 0)
    ensures CountOn(Sales(orders, restaurant, gte, lt), d) == Sum(orders, (t: Ticket) =>
              if Sold(t, restaurant) && gte <= t.createdAt < lt && t.createdAt / 86400000 == d then 1 else 0)
  {
    if orders != [] {
      var front, last := orders[..|orders| - 1], orders[|orders| - 1];
      DayAddsUp(front, restaurant, gte, lt, d);
      var sales := Sales(front, restaurant, gte, lt);
      assert (sales + [last])[..|sales|] == sales && sales + [] == sales;
    }
  }

  /** The figures of a number of sales: their money, how many, and the average to the nearest cent, or nothing. */
  predicate AreFigures(summary: Summary, total: int, count: int) {
    && summary.totalSalesCents == total && summary.ticketCount == count
    && if count == 0 then summary.averageTicketCents == 0
       else 2 * count * summary.averageTicketCents - count <= 2 * total < 2 * count * summary.averageTicketCents + count
  }

  lemma SummarizedFigures(total: int, count: nat)
    ensures AreFigures(Summarize(total, count), total, count)
  {
    if count > 0 {
      RoundRatioIsNearest(total, count);
    }
  }

  /** The single-day summary is of the orders sold from the day's midnight to just before its last millisecond. */
  lemma DailySummaryIs(orders: seq<Ticket>, restaurant: nat, date: Day)
    ensures AreFigures(
              GetDailySummary(orders, restaurant, date),
              Sum(orders, (t: Ticket) =>
                if Sold(t, restaurant) && 86400000 * date <= t.createdAt < 86400000 * date + 86399999
                then t.totalCents else 0),
              Sum(orders, (t: Ticket) =>
                if Sold(t, restaurant) && 86400000 * date <= t.createdAt < 86400000 * date + 86399999 then 1 else 0))
  {
    SalesAddUp(orders, restaurant, 86400000 * date, 86400000 * date + 86399999);
    var sales := Sales(orders, restaurant, DayStart(date), DayLimit(date));
    SummarizedFigures(Total(sales), |sales|);
  }

  /** A day is reported exactly when an order of it was sold in the range. */
  lemma ReportedDays(entries: seq<Dated<Summary>>, orders: seq<Ticket>, restaurant: nat, first: Day, last: Day, d: Day)
    requires IsRangeSummary(entries, RangeSales(orders, restaurant, first, last))
    ensures d in Days(entries) <==> Sum(orders, (t: Ticket) =>
              if Sold(t, restaurant) && 86400000 * first <= t.createdAt < 86400000 * last + 86399999
                 && t.createdAt / 86400000 == d then 1 else 0) > 0
  {
    DayAddsUp(orders, restaurant, 86400000 * first, 86400000 * last + 86399999, d);
  }

  /** Each entry of the range summary is of the orders of its day sold in the range. */
  lemma RangeEntryIs(entries: seq<Dated<Summary>>, orders: seq<Ticket>, restaurant: nat, first: Day, last: Day,
                     e: Dated<Summary>)
    requires IsRangeSummary(entries, RangeSales(orders, restaurant, first, last)) && e in entries
    ensures AreFigures(
              e.value,
              Sum(orders, (t: Ticket) =>
                if Sold(t, restaurant) && 86400000 * first <= t.createdAt < 86400000 * last + 86399999
                   && t.createdAt / 86400000 == e.date then t.totalCents else 0),
              Sum(orders, (t: Ticket) =>
                if Sold(t, restaurant) && 86400000 * first <= t.createdAt < 86400000 * last + 86399999
                   && t.createdAt / 86400000 == e.date then 1 else 0))
  {
    DayAddsUp(orders, restaurant, 86400000 * first, 86400000 * last + 86399999, e.date);
    var sales := RangeSales(orders, restaurant, first, last);
    SummarizedFigures(TotalOn(sales, e.date), CountOn(sales, e.date));
  }

  // ---------- The reports agree ----------

  lemma LastIsLargest(a: seq<Day>, d: Day)
    requires a != [] && Ascending(a)
    ensures d in a <==> d == a[|a| - 1] || d in a[..|a| - 1]
    ensures d in a[..|a| - 1] ==> d < a[|a| - 1]
  {
    var front, last := a[..|a| - 1], a[|a| - 1];
    assert a == front + [last];
    if d in front {
      var i :| 0 <= i < |front| && front[i] == d;
      assert a[i] < a[|a| - 1];
    }
  }

  lemma SameLast(a: seq<Day>, b: seq<Day>)
    requires Ascending(a) && Ascending(b) && (forall d :: d in a <==> d in b) && a != []
    ensures b != [] && a[|a| - 1] == b[|b| - 1]
  {
    var last := a[|a| - 1];
    assert last in a;
    assert last in b;
    assert b[|b| - 1] in b;
    LastIsLargest(a, b[|b| - 1]);
    LastIsLargest(b, a[|a| - 1]);
  }

  lemma {:induction false} AscendingIsUnique(a: seq<Day>, b: seq<Day>)
    requires Ascending(a) && Ascending(b) && forall d :: d in a <==> d in b
    ensures a == b
    decreases |a|
  {
    if a == [] {
      assert forall i :: 0 <= i < |b| ==> b[i] in b;
    } else {
      var n, m := |a| - 1, |b| - 1;
      SameLast(a, b);
      forall d
        ensures d in a[..n] <==> d in b[..m]
      {
        LastIsLargest(a, d);
        LastIsLargest(b, d);
      }
      AscendingIsUnique(a[..n], b[..m]);
      assert a == a[..n] + [a[n]] && b == b[..m] + [b[m]];
    }
  }

  /** Entry by entry, the range summary's counts are the ticket counts by day. */
  lemma CountsAgree(entries: seq<Dated<Summary>>, counts: seq<Dated<nat>>, sales: seq<Ticket>)
    requires IsRangeSummary(entries, sales) && IsCountByDay(counts, sales)
    ensures |entries| == |counts|
    ensures forall i :: 0 <= i < |entries| ==>
              entries[i].date == counts[i].date && entries[i].value.ticketCount == counts[i].value
  {
    AscendingIsUnique(Days(entries), Days(counts));
    forall i | 0 <= i < |entries|
      ensures entries[i].date == counts[i].date && entries[i].value.ticketCount == counts[i].value
    {
      assert Days(entries)[i] == Days(counts)[i];
      assert entries[i] in entries && counts[i] in counts;
    }
  }

  /** Each entry's average is within half a cent of its total over its count. */
  lemma AverageIsNearest(entries: seq<Dated<Summary>>, sales: seq<Ticket>, e: Dated<Summary>)
    requires IsRangeSummary(entries, sales) && e in entries
    ensures e.value.ticketCount > 0
    ensures var n, avg := e.value.ticketCount, e.value.averageTicketCents;
            2 * n * avg - n <= 2 * e.value.totalSalesCents < 2 * n * avg + n
  {
    var i :| 0 <= i < |entries| && entries[i] == e;
    assert Days(entries)[i] == e.date;
    RoundRatioIsNearest(e.value.totalSalesCents, e.value.ticketCount);
  }

  lemma DayOfMeans(t: Instant, d: Day)
    ensures DayOf(t) == d <==> DayStart(d) <= t < DayStart(d) + DAY_MS
  {
  }

  /** Inside a range of days, a day's instants are its single-day range and its last millisecond. */
  lemma InstantOfDay(t: Instant, startDate: Day, endDate: Day, d: Day)
    requires startDate <= d <= endDate
    ensures DayOf(t) == d <==> DayStart(d) <= t < DayLimit(d) || t == DayLimit(d)
    ensures DayStart(d) <= t < DayLimit(d) ==> DayStart(startDate) <= t < DayLimit(endDate)
  {
    DayOfMeans(t, d);
  }

  lemma OneMoreTicket(tickets: seq<Ticket>, t: Ticket, d: Day, limit: Instant)
    ensures var more := tickets + [t];
            && CountOn(more, d) == CountOn(tickets, d) + (if DayOf(t.createdAt) == d then 1 else 0)
            && TotalOn(more, d) == TotalOn(tickets, d) + (if DayOf(t.createdAt) == d then t.totalCents else 0)
            && CountAt(more, limit) == CountAt(tickets, limit) + (if t.createdAt == limit then 1 else 0)
            && Total(more) == Total(tickets) + t.totalCents
  {
    assert (tickets + [t])[..|tickets|] == tickets;
  }

  lemma SalesOfMore(orders: seq<Ticket>, restaurant: nat, gte: Instant, lt: Instant)
    requires orders != []
    ensures var last := orders[|orders| - 1];
            var front := Sales(orders[..|orders| - 1], restaurant, gte, lt);
            Sales(orders, restaurant, gte, lt) ==
              if last.restaurant == restaurant && IsSale(last.status) && gte <= last.createdAt < lt then front + [last]
              else front
  {
    var front := Sales(orders[..|orders| - 1], restaurant, gte, lt);
    assert front + [] == front;
  }

  /** Part of a range as a range of its own, when its instants and one more are those counted on day d. */
  predicate IsDayPart(sales: seq<Ticket>, own: seq<Ticket>, d: Day, limit: Instant) {
    && CountOn(sales, d) == |own| + CountAt(sales, limit)
    && (CountAt(sales, limit) == 0 ==> TotalOn(sales, d) == Total(own))
  }

  /** A ticket outside the day, on it, or at its limit leaves the parts in step. */
  lemma DayPartNext(sales: seq<Ticket>, own: seq<Ticket>, t: Ticket, d: Day, limit: Instant)
    requires IsDayPart(sales, own, d, limit)
    ensures DayOf(t.createdAt) != d && t.createdAt != limit ==> IsDayPart(sales + [t], own, d, limit)
    ensures DayOf(t.createdAt) == d && t.createdAt == limit ==> IsDayPart(sales + [t], own, d, limit)
    ensures DayOf(t.createdAt) == d && t.createdAt != limit ==> IsDayPart(sales + [t], own + [t], d, limit)
  {
    OneMoreTicket(sales, t, d, limit);
    OneMoreTicket(own, t, d, limit);
  }

  /** A day's part of a range splits into that day's own sales and those of its last millisecond. */
  lemma {:induction false} DayWithinRange(orders: seq<Ticket>, restaurant: nat, startDate: Day, endDate: Day, d: Day)
    requires startDate <= d <= endDate
    ensures IsDayPart(RangeSales(orders, restaurant, startDate, endDate),
                      Sales(orders, restaurant, DayStart(d), DayLimit(d)), d, DayLimit(d))
  {
    if orders != [] {
      var last, before := orders[|orders| - 1], orders[..|orders| - 1];
      DayWithinRange(before, restaurant, startDate, endDate, d);
      InstantOfDay(last.createdAt, startDate, endDate, d);
      SalesOfMore(orders, restaurant, DayStart(startDate), DayLimit(endDate));
      SalesOfMore(orders, restaurant, DayStart(d), DayLimit(d));
      DayPartNext(RangeSales(before, restaurant, startDate, endDate),
                  Sales(before, restaurant, DayStart(d), DayLimit(d)), last, d, DayLimit(d));
    }
  }

  /**
   An entry of the range summary is that day's single-day summary exactly when the range holds no sale in
   the day's last millisecond, which the single-day range leaves out.
   */
  lemma EntryIsDailySummary(
    entries: seq<Dated<Summary>>, orders: seq<Ticket>, restaurant: nat, startDate: Day, endDate: Day, e: Dated<Summary>)
    requires IsRangeSummary(entries, RangeSales(orders, restaurant, startDate, endDate)) && e in entries
    ensures startDate <= e.date <= endDate
    ensures e.value == GetDailySummary(orders, restaurant, e.date)
       <==> CountAt(RangeSales(orders, restaurant, startDate, endDate), DayLimit(e.date)) == 0
  {
    var sales := RangeSales(orders, restaurant, startDate, endDate);
    var i :| 0 <= i < |entries| && entries[i] == e;
    assert Days(entries)[i] == e.date;
    CountedDayInRange(orders, restaurant, startDate, endDate, e.date);
    DayWithinRange(orders, restaurant, startDate, endDate, e.date);
  }

  lemma {:induction false} CountedDayInRange(orders: seq<Ticket>, restaurant: nat, startDate: Day, endDate: Day, d: Day)
    requires CountOn(RangeSales(orders, restaurant, startDate, endDate), d) > 0
    ensures startDate <= d <= endDate
  {
    var last := orders[|orders| - 1];
    var front := RangeSales(orders[..|orders| - 1], restaurant, startDate, endDate);
    SalesOfMore(orders, restaurant, DayStart(startDate), DayLimit(endDate));
    OneMoreTicket(front, last, d, DayLimit(d));
    DayOfMeans(last.createdAt, d);
    if CountOn(front, d) > 0 {
      CountedDayInRange(orders[..|orders| - 1], restaurant, startDate, endDate, d);
    }
  }

  lemma OneSale(t: Ticket, d: Day)
    ensures CountOn([t], d) == if DayOf(t.createdAt) == d then 1 else 0
    ensures TotalOn([t], d) == if DayOf(t.createdAt) == d then t.totalCents else 0
  {
    OneMoreTicket([], t, d, 0);
    assert [] + [t] == [t];
  }

  lemma OneOrderSales(t: Ticket, gte: Instant, lt: Instant)
    requires IsSale(t.status)
    ensures Sales([t], t.restaurant, gte, lt) == if gte <= t.createdAt < lt then [t] else []
  {
    assert [t][..0] == [] && [] + [t] == [t];
    SalesOfMore([t], t.restaurant, gte, lt);
  }

  /** It happens: one sale in the last millisecond of day 0 makes an entry of the range and none of the day. */
  lemma LastMillisecondIsMissed()
    ensures var orders := [Ticket(1, Confirmed, 100, DayLimit(0))];
            && IsRangeSummary([Dated(0, Summary(100, 1, 100))], RangeSales(orders, 1, 0, 1))
            && GetDailySummary(orders, 1, 0) == Summary(0, 0, 0)
  {
    var sale := Ticket(1, Confirmed, 100, DayLimit(0));
    OneOrderSales(sale, DayStart(0), DayLimit(1));
    OneOrderSales(sale, DayStart(0), DayLimit(0));
    forall d
      ensures CountOn([sale], d) == if d == 0 then 1 else 0
    {
      OneSale(sale, d);
    }
    OneSale(sale, 0);
    assert Days([Dated(0, Summary(100, 1, 100))]) == [0];
  }
}
