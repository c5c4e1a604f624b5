/**
 * The dashboard's trailing window: thirty daily buckets, oldest first and
 * ending today, each summing the revenue, order count and profit of the
 * orders placed that day. Only DEBT_COLLECTION entries are left out, so an
 * IMPORT order's total is counted as revenue.
 */
module DailyStats {
  import opened Types

  const WindowDays: nat := 30

  /** Every order except a DEBT_COLLECTION audit entry feeds the buckets. */
  predicate Counted(o: Order)
  {
    o.kind != Some(DebtCollection)
  }

  /** The first day of the window that ends on `today`. */
  function FirstDay(today: int): int
  {
    today - (WindowDays - 1)
  }

  /** The bucket of one day, folding the orders in ledger order. */
  function DayStat(orders: seq<Order>, day: int): (r: DailyStat)
    ensures r.date == day
    ensures 0 <= r.orders <= |orders|
    decreases |orders|
  {
    if |orders| == 0 then DailyStat(day, 0, 0, 0)
    else
      var prev := DayStat(orders[..|orders| - 1], day);
      var o := orders[|orders| - 1];
      if Counted(o) && DayOf(o.timestamp) == day
      then DailyStat(day, prev.revenue + o.totalAmount, prev.orders + 1, prev.profit + o.profit)
      else prev
  }

  /** The orders that land in the bucket of `day`. */
  function OnDay(day: int): Order -> bool
  {
    (o: Order) => Counted(o) && DayOf(o.timestamp) == day
  }

  /** The window, as `calculateDailyStats` returns it. */
  function DailyStatsOf(orders: seq<Order>, today: int): (r: seq<DailyStat>)
    ensures |r| == WindowDays
    ensures forall k :: 0 <= k < |r| ==> r[k].date == FirstDay(today) + k
    ensures r[WindowDays - 1].date == today
  {
    var r := seq(WindowDays, k requires 0 <= k < WindowDays => DayStat(orders, FirstDay(today) + k));
    assert forall k :: 0 <= k < |r| ==> r[k] == DayStat(orders, FirstDay(today) + k);
    r
  }

  /** A bucket's order count is the number of counted orders placed on its day. */
  lemma {:induction false} DayStatCountsItsOrders(orders: seq<Order>, day: int)
    ensures DayStat(orders, day).orders == |Filter(orders, OnDay(day))|
    decreases |orders|
  {
    if |orders| > 0 {
      var init := orders[..|orders| - 1];
      DayStatCountsItsOrders(init, day);
      var kept := Filter(init, OnDay(day));
      assert |Filter(orders, OnDay(day))| == |kept| + (if OnDay(day)(orders[|orders| - 1]) then 1 else 0);
    }
  }

  /** An order appended to the ledger adds to its own day's bucket and to no other. */
  lemma AppendOrder(orders: seq<Order>, o: Order, day: int)
    ensures var before := DayStat(orders, day);
      DayStat(orders + [o], day) ==
        if Counted(o) && DayOf(o.timestamp) == day
        then DailyStat(day, before.revenue + o.totalAmount, before.orders + 1, before.profit + o.profit)
        else before
  {
    assert (orders + [o])[..|orders|] == orders;
  }

  /** `AppendOrder` for every day at once. */
  lemma AppendToEveryDay(orders: seq<Order>, o: Order)
    ensures forall day ::
      DayStat(orders + [o], day) ==
        if Counted(o) && DayOf(o.timestamp) == day
        then DailyStat(day, DayStat(orders, day).revenue + o.totalAmount, DayStat(orders, day).orders + 1,
                       DayStat(orders, day).profit + o.profit)
        else DayStat(orders, day)
  {
    forall day
      ensures DayStat(orders + [o], day) ==
        if Counted(o) && DayOf(o.timestamp) == day
        then DailyStat(day, DayStat(orders, day).revenue + o.totalAmount, DayStat(orders, day).orders + 1,
                       DayStat(orders, day).profit + o.profit)
        else DayStat(orders, day)
    {
      AppendOrder(orders, o, day);
    }
  }

  /** Appending a DEBT_COLLECTION entry leaves the whole window unchanged. */
  lemma CollectionEntryInvisible(orders: seq<Order>, log: Order, today: int)
    requires log.kind == Some(DebtCollection)
    ensures DailyStatsOf(orders + [log], today) == DailyStatsOf(orders, today)
  {
    forall k | 0 <= k < WindowDays
      ensures DailyStatsOf(orders + [log], today)[k] == DailyStatsOf(orders, today)[k]
    {
      AppendOrder(orders, log, FirstDay(today) + k);
    }
  }

  /** An IMPORT placed today raises today's revenue by its total, as written. */
  lemma ImportCountsAsRevenue(orders: seq<Order>, o: Order, today: int)
    requires o.kind == Some(Import) && DayOf(o.timestamp) == today
    ensures DailyStatsOf(orders + [o], today)[WindowDays - 1].revenue ==
            DailyStatsOf(orders, today)[WindowDays - 1].revenue + o.totalAmount
  {
    AppendOrder(orders, o, today);
  }

  /** An order outside the window changes no bucket. */
  lemma OutsideWindowInvisible(orders: seq<Order>, o: Order, today: int)
    requires DayOf(o.timestamp) < FirstDay(today) || DayOf(o.timestamp) > today
    ensures DailyStatsOf(orders + [o], today) == DailyStatsOf(orders, today)
  {
    forall k | 0 <= k < WindowDays
      ensures DailyStatsOf(orders + [o], today)[k] == DailyStatsOf(orders, today)[k]
    {
      AppendOrder(orders, o, FirstDay(today) + k);
    }
  }

  /**
   * `calculateDailyStats`: push thirty empty buckets and index them by date,
   * then let each counted order add to the bucket of its day, if any.
   */
  method CalculateDailyStats(orders: seq<Order>, today: int) returns (stats: seq<DailyStat>)
    ensures stats == DailyStatsOf(orders, today)
  {
    stats := [];
    var byDate: map<int, nat> := map[];
    var i := WindowDays;
    while i > 0
      invariant 0 <= i <= WindowDays
      invariant |stats| == WindowDays - i
      invariant forall k :: 0 <= k < |stats| ==> stats[k] == DailyStat(FirstDay(today) + k, 0, 0, 0)
      invariant forall d :: d in byDate <==> FirstDay(today) <= d < FirstDay(today) + |stats|
      invariant forall d :: d in byDate ==> byDate[d] == d - FirstDay(today)
    {
      i := i - 1;
      var date := today - i;
      stats := stats + [DailyStat(date, 0, 0, 0)];
      byDate := byDate[date := |stats| - 1];
    }

    var j := 0;
    while j < |orders|
      invariant 0 <= j <= |orders|
      invariant |stats| == WindowDays
      invariant forall k :: 0 <= k < WindowDays ==> stats[k] == DayStat(orders[..j], FirstDay(today) + k)
    {
      var o := orders[j];
      assert orders[..j + 1] == orders[..j] + [o];
      AppendToEveryDay(orders[..j], o);
      if Counted(o) {
        var date := DayOf(o.timestamp);
        if date in byDate {
          var k := byDate[date];
          var s := stats[k];
          stats := stats[k := DailyStat(s.date, s.revenue + o.totalAmount, s.orders + 1, s.profit + o.profit)];
        }
      }
      j := j + 1;
    }
    assert orders[..j] == orders;
  }

  /** Sum of the revenue of the buckets (the dashboard's 30-day revenue). */
  function TotalRevenue(stats: seq<DailyStat>): (r: int)
    ensures (forall k :: 0 <= k < |stats| ==> stats[k].revenue >= 0) ==> r >= 0
    decreases |stats|
  {
    if |stats| == 0 then 0 else TotalRevenue(stats[..|stats| - 1]) + stats[|stats| - 1].revenue
  }

  /** Sum of the profit of the buckets (the dashboard's 30-day profit). */
  function TotalProfit(stats: seq<DailyStat>): (r: int)
    ensures (forall k :: 0 <= k < |stats| ==> stats[k].profit >= 0) ==> r >= 0
    decreases |stats|
  {
    if |stats| == 0 then 0 else TotalProfit(stats[..|stats| - 1]) + stats[|stats| - 1].profit
  }

  /** A counted order whose day falls inside the window ending on `today`. */
  predicate InWindow(o: Order, today: int)
  {
    Counted(o) && FirstDay(today) <= DayOf(o.timestamp) <= today
  }

  /** Reference definition: Σ totalAmount over the counted orders of the window's days. */
  function WindowRevenue(orders: seq<Order>, today: int): int
    decreases |orders|
  {
    if |orders| == 0 then 0
    else
      var o := orders[|orders| - 1];
      WindowRevenue(orders[..|orders| - 1], today) + (if InWindow(o, today) then o.totalAmount else 0)
  }

  /** Reference definition: Σ profit over the counted orders of the window's days. */
  function WindowProfit(orders: seq<Order>, today: int): int
    decreases |orders|
  {
    if |orders| == 0 then 0
    else
      var o := orders[|orders| - 1];
      WindowProfit(orders[..|orders| - 1], today) + (if InWindow(o, today) then o.profit else 0)
  }

  /** Buckets holding nothing sum to nothing. */
  lemma {:induction false} EmptyTotals(w: seq<DailyStat>)
    requires forall k :: 0 <= k < |w| ==> w[k].revenue == 0 && w[k].profit == 0
    ensures TotalRevenue(w) == 0 && TotalProfit(w) == 0
    decreases |w|
  {
    if |w| > 0 {
      EmptyTotals(w[..|w| - 1]);
    }
  }

  /** Replacing one bucket changes the totals by the difference of that bucket. */
  lemma {:induction false} TotalsUpdate(w: seq<DailyStat>, k: nat, s: DailyStat)
    requires k < |w|
    ensures TotalRevenue(w[k := s]) == TotalRevenue(w) - w[k].revenue + s.revenue
    ensures TotalProfit(w[k := s]) == TotalProfit(w) - w[k].profit + s.profit
    decreases |w|
  {
    var n := |w| - 1;
    if k < n {
      assert w[k := s][..n] == w[..n][k := s];
      TotalsUpdate(w[..n], k, s);
    } else {
      assert w[k := s][..n] == w[..n];
    }
  }

  /** An appended order lands in its own day's bucket if that day is in the window, else nowhere. */
  lemma WindowAppend(orders: seq<Order>, o: Order, today: int)
    ensures var w := DailyStatsOf(orders, today);
      var k := DayOf(o.timestamp) - FirstDay(today);
      DailyStatsOf(orders + [o], today) ==
        if InWindow(o, today)
        then w[k := DailyStat(w[k].date, w[k].revenue + o.totalAmount, w[k].orders + 1, w[k].profit + o.profit)]
        else w
  {
    var w := DailyStatsOf(orders, today);
    var w' := DailyStatsOf(orders + [o], today);
    if InWindow(o, today) {
      var k := DayOf(o.timestamp) - FirstDay(today);
      var b := DailyStat(w[k].date, w[k].revenue + o.totalAmount, w[k].orders + 1, w[k].profit + o.profit);
      forall j | 0 <= j < WindowDays
        ensures w'[j] == w[k := b][j]
      {
        AppendOrder(orders, o, FirstDay(today) + j);
      }
      assert w' == w[k := b];
    } else {
      forall j | 0 <= j < WindowDays
        ensures w'[j] == w[j]
      {
        AppendOrder(orders, o, FirstDay(today) + j);
      }
      assert w' == w;
    }
  }

  /**
   * The dashboard's 30-day revenue and profit, summed over the buckets, are
   * the revenue and profit of the counted orders placed in those thirty days.
   */
  lemma {:induction false} TotalsOfWindow(orders: seq<Order>, today: int)
    ensures TotalRevenue(DailyStatsOf(orders, today)) == WindowRevenue(orders, today)
    ensures TotalProfit(DailyStatsOf(orders, today)) == WindowProfit(orders, today)
    decreases |orders|
  {
    var w := DailyStatsOf(orders, today);
    if |orders| == 0 {
      assert forall k :: 0 <= k < |w| ==> w[k] == DayStat(orders, FirstDay(today) + k);
      EmptyTotals(w);
    } else {
      var init := orders[..|orders| - 1];
      var o := orders[|orders| - 1];
      assert init + [o] == orders;
      TotalsOfWindow(init, today);
      WindowAppend(init, o, today);
      if InWindow(o, today) {
        var v := DailyStatsOf(init, today);
        var k := DayOf(o.timestamp) - FirstDay(today);
        TotalsUpdate(v, k, DailyStat(v[k].date, v[k].revenue + o.totalAmount, v[k].orders + 1, v[k].profit + o.profit));
      }
    }
  }

  /**
   * The dashboard's "today" figures: the bucket whose date is today, and
   * zeros when none is.
   */
  function TodayStat(stats: seq<DailyStat>, today: int): (r: DailyStat)
    ensures r.date == today
    ensures (exists k :: 0 <= k < |stats| && stats[k].date == today) ==> r in stats
    ensures (forall k :: 0 <= k < |stats| ==> stats[k].date != today) ==> r == DailyStat(today, 0, 0, 0)
  {
    match FirstIndex(stats, (s: DailyStat) => s.date == today)
    case Some(k) => stats[k]
    case None => DailyStat(today, 0, 0, 0)
  }

  /** On the window itself, today's figures are its last bucket. */
  lemma TodayIsLastBucket(orders: seq<Order>, today: int)
    ensures TodayStat(DailyStatsOf(orders, today), today) == DailyStatsOf(orders, today)[WindowDays - 1]
    ensures TodayStat(DailyStatsOf(orders, today), today) == DayStat(orders, today)
  {
    var w := DailyStatsOf(orders, today);
    var found := FirstIndex(w, (s: DailyStat) => s.date == today);
    assert w[WindowDays - 1].date == today;
    assert found.Some?;
    assert w[found.value].date == FirstDay(today) + found.value;
  }
}
