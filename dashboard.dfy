/**
 * The dashboard's monthly reports and summary figures. A month is given by
 * the day number of its first day and its length; a report day `d` (from 1)
 * is the calendar day `monthStart + d - 1`.
 */
module Dashboard {
  import opened Types
  import opened Pos
  import opened Inventory

  /** The label every photo-service line is reported under. */
  const PhotoLabel: string := "Photo tài liệu"
  /** The description of a day whose line labels join to nothing. */
  const RevenueFallback: string := "Doanh thu bán hàng"
  /** A product with less stock than this is flagged for restocking. */
  const LowStockThreshold: int := 10

  datatype RevenueRow = RevenueRow(day: nat, desc: string, amount: int)

  /** A purchase-report row; `day` is the day number the row is dated and sorted by. */
  datatype PurchaseRow = PurchaseRow(
    day: int,
    sellerName: string,
    sellerAddress: string,
    sellerId: string,
    itemName: string,
    quantity: int,
    price: int,
    total: int,
    note: string)

  // ---------------------------------------------------------------------------
  // Revenue report
  // ---------------------------------------------------------------------------

  /** Orders typed exactly SALE and placed on `day`. */
  function SaleOn(day: int): Order -> bool
  {
    (o: Order) => o.kind == Some(Sale) && DayOf(o.timestamp) == day
  }

  /** Σ totalAmount. */
  function SumTotals(os: seq<Order>): int
    decreases |os|
  {
    if |os| == 0 then 0 else SumTotals(os[..|os| - 1]) + os[|os| - 1].totalAmount
  }

  /** A day's SALE revenue: Σ totalAmount over the orders typed SALE placed that day. */
  function SaleRevenue(orders: seq<Order>, day: int): int
    decreases |orders|
  {
    if |orders| == 0 then 0
    else
      var o := orders[|orders| - 1];
      SaleRevenue(orders[..|orders| - 1], day) + (if SaleOn(day)(o) then o.totalAmount else 0)
  }

  /** Filtering out the day's SALE orders and summing them, as the report does, gives the day's revenue. */
  lemma {:induction false} SumOfSalesIsSaleRevenue(orders: seq<Order>, day: int)
    ensures SumTotals(Filter(orders, SaleOn(day))) == SaleRevenue(orders, day)
    decreases |orders|
  {
    if |orders| > 0 {
      var init := orders[..|orders| - 1];
      var o := orders[|orders| - 1];
      SumOfSalesIsSaleRevenue(init, day);
      var f := Filter(init, SaleOn(day));
      if SaleOn(day)(o) {
        assert (f + [o])[..|f|] == f;
      }
    }
  }

  /** Orders that are not SALE never move a day's revenue in the report. */
  lemma NonSaleInvisible(orders: seq<Order>, o: Order, day: int)
    requires o.kind != Some(Sale)
    ensures SaleRevenue(orders + [o], day) == SaleRevenue(orders, day)
  {
    assert (orders + [o])[..|orders|] == orders;
  }

  /** How a line is described: photo services collapse to one label. */
  function ItemLabel(item: OrderItem, ps: seq<Product>): string
  {
    match FindProduct(ps, item.productId)
    case Some(p) => if p.category == PhotoService then PhotoLabel else item.productName
    case None => item.productName
  }

  function ItemLabels(items: seq<OrderItem>, ps: seq<Product>): (r: seq<string>)
    ensures |r| == |items|
    ensures forall j :: 0 <= j < |items| ==> r[j] == ItemLabel(items[j], ps)
  {
    seq(|items|, j requires 0 <= j < |items| => ItemLabel(items[j], ps))
  }

  /** The labels of every line of the orders, in order. */
  function OrderLabels(os: seq<Order>, ps: seq<Product>): seq<string>
    decreases |os|
  {
    if |os| == 0 then [] else OrderLabels(os[..|os| - 1], ps) + ItemLabels(os[|os| - 1].items, ps)
  }

  /** The distinct elements of `s`, each where it first occurs: what a JavaScript `Set` iterates. */
  function Dedup(s: seq<string>): (r: seq<string>)
    ensures forall x :: x in r <==> x in s
    ensures forall i, j :: 0 <= i < j < |r| ==> r[i] != r[j]
    ensures |r| <= |s|
    decreases |s|
  {
    if |s| == 0 then []
    else
      var d := Dedup(s[..|s| - 1]);
      assert s == s[..|s| - 1] + [s[|s| - 1]];
      if s[|s| - 1] in d then d else d + [s[|s| - 1]]
  }

  /** Elements of `a` keep their first-seen order whatever follows them. */
  lemma {:induction false} DedupPrefix(a: seq<string>, b: seq<string>)
    ensures Dedup(a) <= Dedup(a + b)
    decreases |b|
  {
    if |b| == 0 {
      assert a + b == a;
    } else {
      var b' := b[..|b| - 1];
      assert (a + b)[..|a + b| - 1] == a + b';
      DedupPrefix(a, b');
    }
  }

  /** `labels.join(sep)`. */
  function Join(parts: seq<string>, sep: string): (r: string)
    ensures |parts| == 0 ==> r == ""
    decreases |parts|
  {
    if |parts| == 0 then ""
    else if |parts| == 1 then parts[0]
    else
      var rest := Join(parts[1..], sep);
      parts[0] + sep + rest
  }

  /** The day's description: the joined labels, or the fallback when that is empty. */
  function Description(labels: seq<string>): (r: string)
    ensures r != ""
    ensures |labels| == 0 ==> r == RevenueFallback
  {
    var joined := Join(labels, ", ");
    if joined == "" then RevenueFallback else joined
  }

  /** The joined text starts with the first label. */
  lemma {:induction false} JoinStartsWithFirst(parts: seq<string>, sep: string)
    requires |parts| > 0
    ensures parts[0] <= Join(parts, sep)
  {
    if |parts| > 1 {
      assert Join(parts, sep) == parts[0] + (sep + Join(parts[1..], sep));
    }
  }

  /**
   * A description names the first label seen when that label is not empty,
   * and is the fallback exactly when the labels join to nothing.
   */
  lemma DescriptionNamesFirstLabel(labels: seq<string>)
    ensures |labels| > 0 && labels[0] != "" ==> labels[0] <= Description(labels)
    ensures Description(labels) == RevenueFallback <==> Join(labels, ", ") == "" || Join(labels, ", ") == RevenueFallback
  {
    if |labels| > 0 {
      JoinStartsWithFirst(labels, ", ");
    }
  }

  /** One more label extends the de-duplicated list only when it is new. */
  lemma DedupAppend(s: seq<string>, l: string)
    ensures Dedup(s + [l]) == if l in Dedup(s) then Dedup(s) else Dedup(s) + [l]
  {
    assert (s + [l])[..|s|] == s;
  }

  lemma ItemLabelsStep(items: seq<OrderItem>, ps: seq<Product>, j: nat)
    requires j < |items|
    ensures ItemLabels(items[..j + 1], ps) == ItemLabels(items[..j], ps) + [ItemLabel(items[j], ps)]
  {
  }

  /** The step of the inner loop of `CollectLabels`: one more line's label, added only when new. */
  lemma AddLabelStep(r: seq<string>, before: seq<string>, items: seq<OrderItem>, ps: seq<Product>, j: nat)
    requires j < |items|
    requires r == Dedup(before + ItemLabels(items[..j], ps))
    ensures (if ItemLabel(items[j], ps) in r then r else r + [ItemLabel(items[j], ps)]) ==
            Dedup(before + ItemLabels(items[..j + 1], ps))
  {
    ItemLabelsStep(items, ps, j);
    var seen := before + ItemLabels(items[..j], ps);
    assert before + ItemLabels(items[..j + 1], ps) == seen + [ItemLabel(items[j], ps)];
    DedupAppend(seen, ItemLabel(items[j], ps));
  }

  lemma OrderLabelsStep(os: seq<Order>, ps: seq<Product>, i: nat)
    requires i < |os|
    ensures OrderLabels(os[..i + 1], ps) == OrderLabels(os[..i], ps) + ItemLabels(os[i].items, ps)
  {
    assert os[..i + 1][..i] == os[..i];
  }

  /**
   * Collect the labels of the day's orders, adding each to the list unless
   * already there.
   */
  method CollectLabels(dayOrders: seq<Order>, ps: seq<Product>) returns (labels: seq<string>)
    ensures labels == Dedup(OrderLabels(dayOrders, ps))
  {
    labels := [];
    var i := 0;
    while i < |dayOrders|
      invariant 0 <= i <= |dayOrders|
      invariant labels == Dedup(OrderLabels(dayOrders[..i], ps))
    {
      labels := AddLineLabels(labels, OrderLabels(dayOrders[..i], ps), dayOrders[i].items, ps);
      OrderLabelsStep(dayOrders, ps, i);
      i := i + 1;
    }
    assert dayOrders[..i] == dayOrders;
  }

  /** The inner loop of `CollectLabels`: the labels of one order's lines. */
  method AddLineLabels(labels: seq<string>, before: seq<string>, items: seq<OrderItem>, ps: seq<Product>)
    returns (r: seq<string>)
    requires labels == Dedup(before)
    ensures r == Dedup(before + ItemLabels(items, ps))
  {
    r := labels;
    assert before + ItemLabels(items[..0], ps) == before;
    var j := 0;
    while j < |items|
      invariant 0 <= j <= |items|
      invariant r == Dedup(before + ItemLabels(items[..j], ps))
    {
      var l := ItemLabel(items[j], ps);
      AddLabelStep(r, before, items, ps, j);
      if l !in r {
        r := r + [l];
      }
      j := j + 1;
    }
    assert items[..j] == items;
  }

  /** The labels of the lines of the day's SALE orders, in order. */
  function DayLabels(orders: seq<Order>, ps: seq<Product>, day: int): seq<string>
    decreases |orders|
  {
    if |orders| == 0 then []
    else
      var o := orders[|orders| - 1];
      DayLabels(orders[..|orders| - 1], ps, day) + (if SaleOn(day)(o) then ItemLabels(o.items, ps) else [])
  }

  /** Filtering out the day's SALE orders and listing their labels gives the day's labels. */
  lemma {:induction false} LabelsOfSalesAreDayLabels(orders: seq<Order>, ps: seq<Product>, day: int)
    ensures OrderLabels(Filter(orders, SaleOn(day)), ps) == DayLabels(orders, ps, day)
    decreases |orders|
  {
    if |orders| > 0 {
      var init := orders[..|orders| - 1];
      var o := orders[|orders| - 1];
      LabelsOfSalesAreDayLabels(init, ps, day);
      var f := Filter(init, SaleOn(day));
      if SaleOn(day)(o) {
        assert (f + [o])[..|f|] == f;
      } else {
        assert DayLabels(orders, ps, day) == DayLabels(init, ps, day) + [];
      }
    }
  }

  /** A day's description: the distinct labels of its SALE lines. */
  function DayDescription(orders: seq<Order>, ps: seq<Product>, day: int): string
  {
    Description(Dedup(DayLabels(orders, ps, day)))
  }

  /** The days 1..n of the month whose SALE revenue is positive, in increasing order. */
  function RevenueDays(orders: seq<Order>, monthStart: int, n: nat): (days: seq<nat>)
    ensures |days| <= n
    ensures forall k :: 0 <= k < |days| ==> 1 <= days[k] <= n && SaleRevenue(orders, monthStart + days[k] - 1) > 0
    ensures forall k, l :: 0 <= k < l < |days| ==> days[k] < days[l]
    decreases n
  {
    if n == 0 then []
    else
      var earlier := RevenueDays(orders, monthStart, n - 1);
      if SaleRevenue(orders, monthStart + n - 1) > 0 then earlier + [n] else earlier
  }

  /** Every day of the month with positive SALE revenue is a report day. */
  lemma {:induction false} RevenueDaysComplete(orders: seq<Order>, monthStart: int, n: nat, d: nat)
    requires 1 <= d <= n && SaleRevenue(orders, monthStart + d - 1) > 0
    ensures d in RevenueDays(orders, monthStart, n)
    decreases n
  {
    if d < n {
      RevenueDaysComplete(orders, monthStart, n - 1, d);
    }
  }

  /** The row of one report day. */
  function RowFor(orders: seq<Order>, ps: seq<Product>, monthStart: int, day: nat): RevenueRow
  {
    RevenueRow(day, DayDescription(orders, ps, monthStart + day - 1), SaleRevenue(orders, monthStart + day - 1))
  }

  /** The report's rows for days 1..n: one row per day with positive SALE revenue. */
  function RevenueRows(orders: seq<Order>, ps: seq<Product>, monthStart: int, n: nat): (rows: seq<RevenueRow>)
    ensures |rows| == |RevenueDays(orders, monthStart, n)| <= n
    ensures forall k :: 0 <= k < |rows| ==>
      && 1 <= rows[k].day <= n
      && rows[k].amount > 0
      && rows[k].amount == SaleRevenue(orders, monthStart + rows[k].day - 1)
    ensures forall k, l :: 0 <= k < l < |rows| ==> rows[k].day < rows[l].day
  {
    var days := RevenueDays(orders, monthStart, n);
    var rows := seq(|days|, k requires 0 <= k < |days| => RowFor(orders, ps, monthStart, days[k]));
    forall k | 0 <= k < |rows|
      ensures rows[k].day == days[k] && rows[k].amount == SaleRevenue(orders, monthStart + days[k] - 1)
    {
      assert rows[k] == RowFor(orders, ps, monthStart, days[k]);
    }
    rows
  }

  /** Every day of the month with positive SALE revenue has its row. */
  lemma RevenueRowsComplete(orders: seq<Order>, ps: seq<Product>, monthStart: int, n: nat, d: nat)
    requires 1 <= d <= n && SaleRevenue(orders, monthStart + d - 1) > 0
    ensures exists k ::
      0 <= k < |RevenueRows(orders, ps, monthStart, n)| && RevenueRows(orders, ps, monthStart, n)[k].day == d
  {
    var days := RevenueDays(orders, monthStart, n);
    RevenueDaysComplete(orders, monthStart, n, d);
    var k :| 0 <= k < |days| && days[k] == d;
    assert RevenueRows(orders, ps, monthStart, n)[k] == RowFor(orders, ps, monthStart, days[k]);
  }

  /** Day `n` adds its own row when its revenue is positive, and nothing otherwise. */
  lemma RevenueRowsStep(orders: seq<Order>, ps: seq<Product>, monthStart: int, n: nat)
    requires n > 0
    ensures RevenueRows(orders, ps, monthStart, n) ==
      if SaleRevenue(orders, monthStart + n - 1) > 0
      then RevenueRows(orders, ps, monthStart, n - 1) + [RowFor(orders, ps, monthStart, n)]
      else RevenueRows(orders, ps, monthStart, n - 1)
  {
  }

  function RowsAmount(rows: seq<RevenueRow>): int
    decreases |rows|
  {
    if |rows| == 0 then 0 else RowsAmount(rows[..|rows| - 1]) + rows[|rows| - 1].amount
  }

  lemma RowsAmountAppend(rows: seq<RevenueRow>, row: RevenueRow)
    ensures RowsAmount(rows + [row]) == RowsAmount(rows) + row.amount
  {
    assert (rows + [row])[..|rows|] == rows;
  }

  /** Σ over days 1..n of the day's SALE revenue where it is positive. */
  function PositiveRevenue(orders: seq<Order>, monthStart: int, n: nat): int
    decreases n
  {
    if n == 0 then 0
    else
      var r := SaleRevenue(orders, monthStart + n - 1);
      PositiveRevenue(orders, monthStart, n - 1) + (if r > 0 then r else 0)
  }

  /** The report total is the month's SALE revenue over the days that had any. */
  lemma {:induction false} RevenueTotalIsPositiveRevenue(orders: seq<Order>, ps: seq<Product>, monthStart: int, n: nat)
    ensures RowsAmount(RevenueRows(orders, ps, monthStart, n)) == PositiveRevenue(orders, monthStart, n)
    decreases n
  {
    if n > 0 {
      var earlier := RevenueRows(orders, ps, monthStart, n - 1);
      var r := SaleRevenue(orders, monthStart + n - 1);
      RevenueTotalIsPositiveRevenue(orders, ps, monthStart, n - 1);
      RevenueRowsStep(orders, ps, monthStart, n);
      if r > 0 {
        var row := RowFor(orders, ps, monthStart, n);
        assert row.amount == r;
        RowsAmountAppend(earlier, row);
      }
    }
  }

  /**
   * The REVENUE branch of `generateReportData`: walk the days of the month,
   * keep those with positive SALE revenue, describe each by its line labels,
   * and accumulate the total.
   */
  method RevenueReport(orders: seq<Order>, ps: seq<Product>, monthStart: int, daysInMonth: nat)
    returns (rows: seq<RevenueRow>, total: int)
    ensures rows == RevenueRows(orders, ps, monthStart, daysInMonth)
    ensures total == RowsAmount(rows)
  {
    rows := [];
    total := 0;
    var i := 1;
    while i <= daysInMonth
      invariant 1 <= i <= daysInMonth + 1
      invariant rows == RevenueRows(orders, ps, monthStart, i - 1)
      invariant total == RowsAmount(rows)
    {
      var revenue, desc := ReportDay(orders, ps, monthStart + i - 1);
      RevenueRowsStep(orders, ps, monthStart, i);
      if revenue > 0 {
        var row := RevenueRow(i, desc, revenue);
        assert row == RowFor(orders, ps, monthStart, i);
        RowsAmountAppend(rows, row);
        rows := rows + [row];
        total := total + revenue;
      }
      i := i + 1;
    }
  }

  /** One day of the REVENUE branch: filter the day's SALE orders, sum them, and describe them if needed. */
  method ReportDay(orders: seq<Order>, ps: seq<Product>, day: int) returns (revenue: int, desc: string)
    ensures revenue == SaleRevenue(orders, day)
    ensures revenue > 0 ==> desc == DayDescription(orders, ps, day)
  {
    var dayOrders := Filter(orders, SaleOn(day));
    revenue := SumTotals(dayOrders);
    SumOfSalesIsSaleRevenue(orders, day);
    desc := "";
    if revenue > 0 {
      var labels := CollectLabels(dayOrders, ps);
      LabelsOfSalesAreDayLabels(orders, ps, day);
      desc := Description(labels);
    }
  }

  // ---------------------------------------------------------------------------
  // Purchase report
  // ---------------------------------------------------------------------------

  /** IMPORT orders without tax, placed within the month. */
  function UntaxedImportIn(monthStart: int, daysInMonth: nat): Order -> bool
  {
    (o: Order) =>
      && o.kind == Some(Import) && o.taxStatus == Some(NoTax)
      && monthStart <= DayOf(o.timestamp) < monthStart + daysInMonth
  }

  /** The day a purchase row is dated: the purchase date when given, else the order's day. */
  function PurchaseDay(o: Order): int
  {
    if o.purchaseDate.Some? then o.purchaseDate.value else DayOf(o.timestamp)
  }

  function PurchaseRowOf(o: Order, item: OrderItem): (r: PurchaseRow)
    ensures r.total == item.quantity * item.price
  {
    PurchaseRow(PurchaseDay(o), OrElse(o.sellerName, ""), OrElse(o.sellerAddress, ""), OrElse(o.sellerIdCard, ""),
                item.productName, item.quantity, item.price, item.quantity * item.price, OrElse(o.note, ""))
  }

  function OrderRows(o: Order): (r: seq<PurchaseRow>)
    ensures |r| == |o.items|
    ensures forall j :: 0 <= j < |r| ==> r[j] == PurchaseRowOf(o, o.items[j])
  {
    seq(|o.items|, j requires 0 <= j < |o.items| => PurchaseRowOf(o, o.items[j]))
  }

  /** One row per line of each order, orders in ledger order. */
  function PurchaseRows(os: seq<Order>): (rows: seq<PurchaseRow>)
    ensures forall k :: 0 <= k < |rows| ==> rows[k].total == rows[k].quantity * rows[k].price
    decreases |os|
  {
    if |os| == 0 then [] else PurchaseRows(os[..|os| - 1]) + OrderRows(os[|os| - 1])
  }

  function LineCount(os: seq<Order>): nat
    decreases |os|
  {
    if |os| == 0 then 0 else LineCount(os[..|os| - 1]) + |os[|os| - 1].items|
  }

  /** There is exactly one row per line of the selected orders. */
  lemma {:induction false} PurchaseRowCount(os: seq<Order>)
    ensures |PurchaseRows(os)| == LineCount(os)
    decreases |os|
  {
    if |os| > 0 {
      PurchaseRowCount(os[..|os| - 1]);
    }
  }

  function RowsTotal(rows: seq<PurchaseRow>): int
    decreases |rows|
  {
    if |rows| == 0 then 0 else RowsTotal(rows[..|rows| - 1]) + rows[|rows| - 1].total
  }

  lemma {:induction false} RowsTotalAppend(a: seq<PurchaseRow>, b: seq<PurchaseRow>)
    ensures RowsTotal(a + b) == RowsTotal(a) + RowsTotal(b)
    decreases |b|
  {
    if |b| == 0 {
      assert a + b == a;
    } else {
      var b' := b[..|b| - 1];
      assert (a + b)[..|a + b| - 1] == a + b';
      RowsTotalAppend(a, b');
    }
  }

  /** Reordering rows does not change their total. */
  lemma {:induction false} RowsTotalPermutation(a: seq<PurchaseRow>, b: seq<PurchaseRow>)
    requires multiset(a) == multiset(b)
    ensures RowsTotal(a) == RowsTotal(b)
    decreases |a|
  {
    if |a| > 0 {
      var last := a[|a| - 1];
      var a' := a[..|a| - 1];
      assert a == a' + [last];
      assert multiset(a) == multiset(a') + multiset{last};
      assert last in multiset(b);
      var k :| 0 <= k < |b| && b[k] == last;
      var b' := b[..k] + b[k + 1..];
      assert b == b[..k] + [last] + b[k + 1..];
      assert multiset(b) == multiset(b[..k]) + multiset{last} + multiset(b[k + 1..]);
      assert multiset(b') == multiset(b[..k]) + multiset(b[k + 1..]);
      assert multiset(a') + multiset{last} == multiset(b') + multiset{last};
      assert multiset(a') == multiset(a') + multiset{last} - multiset{last};
      assert multiset(b') == multiset(b') + multiset{last} - multiset{last};
      RowsTotalPermutation(a', b');
      RowsTotalAppend(b[..k] + [last], b[k + 1..]);
      RowsTotalAppend(b[..k], [last]);
      RowsTotalAppend(b[..k], b[k + 1..]);
    }
  }

  predicate SortedByDay(s: seq<PurchaseRow>)
  {
    forall i, j :: 0 <= i < j < |s| ==> s[i].day <= s[j].day
  }

  /** The in-place sort by date: insertion by adjacent swaps. */
  method SortRowsByDay(a: array<PurchaseRow>)
    modifies a
    ensures SortedByDay(a[..])
    ensures multiset(a[..]) == multiset(old(a[..]))
  {
    var i := 0;
    while i < a.Length
      invariant 0 <= i <= a.Length
      invariant forall k, l :: 0 <= k < l < i ==> a[k].day <= a[l].day
      invariant multiset(a[..]) == multiset(old(a[..]))
    {
      SinkRow(a, i);
      i := i + 1;
    }
  }

  /** One insertion step: move `a[i]` left past every later-dated row before it. */
  method SinkRow(a: array<PurchaseRow>, i: nat)
    requires i < a.Length
    requires forall k, l :: 0 <= k < l < i ==> a[k].day <= a[l].day
    modifies a
    ensures forall k, l :: 0 <= k < l <= i ==> a[k].day <= a[l].day
    ensures multiset(a[..]) == multiset(old(a[..]))
  {
    var j := i;
    while j > 0 && a[j - 1].day > a[j].day
      invariant 0 <= j <= i
      invariant forall k, l :: 0 <= k < l <= i && l != j ==> a[k].day <= a[l].day
      invariant multiset(a[..]) == multiset(old(a[..]))
    {
      ghost var before := a[..];
      a[j - 1], a[j] := a[j], a[j - 1];
      assert a[..] == before[j - 1 := before[j]][j := before[j - 1]];
      j := j - 1;
    }
  }

  /** Σ quantity × price over the rows of one order, added to a running total. */
  method AddOrderRows(data: seq<PurchaseRow>, total: int, o: Order) returns (data': seq<PurchaseRow>, total': int)
    requires total == RowsTotal(data)
    ensures data' == data + OrderRows(o)
    ensures total' == RowsTotal(data')
  {
    data', total' := data, total;
    var j := 0;
    while j < |o.items|
      invariant 0 <= j <= |o.items|
      invariant data' == data + OrderRows(o)[..j]
      invariant total' == RowsTotal(data')
    {
      var row := PurchaseRowOf(o, o.items[j]);
      assert OrderRows(o)[..j + 1] == OrderRows(o)[..j] + [row];
      assert (data' + [row])[..|data'|] == data';
      data' := data' + [row];
      total' := total' + o.items[j].quantity * o.items[j].price;
      j := j + 1;
    }
    assert OrderRows(o)[..j] == OrderRows(o);
  }

  /** Push a row for each line of each order, accumulating the total as rows are made. */
  method CollectPurchaseRows(imports: seq<Order>) returns (data: seq<PurchaseRow>, total: int)
    ensures data == PurchaseRows(imports)
    ensures total == RowsTotal(data)
  {
    data := [];
    total := 0;
    var i := 0;
    while i < |imports|
      invariant 0 <= i <= |imports|
      invariant data == PurchaseRows(imports[..i])
      invariant total == RowsTotal(data)
    {
      data, total := AddOrderRows(data, total, imports[i]);
      assert imports[..i + 1][..i] == imports[..i];
      i := i + 1;
    }
    assert imports[..i] == imports;
  }

  /**
   * The PURCHASE branch of `generateReportData`: one row per line of each
   * untaxed import of the month, the total accumulated as rows are made,
   * then the rows sorted by date.
   */
  method PurchaseReport(orders: seq<Order>, monthStart: int, daysInMonth: nat)
    returns (rows: seq<PurchaseRow>, total: int)
    ensures multiset(rows) == multiset(PurchaseRows(Filter(orders, UntaxedImportIn(monthStart, daysInMonth))))
    ensures SortedByDay(rows)
    ensures total == RowsTotal(rows)
    ensures total == RowsTotal(PurchaseRows(Filter(orders, UntaxedImportIn(monthStart, daysInMonth))))
  {
    var imports := Filter(orders, UntaxedImportIn(monthStart, daysInMonth));
    var data;
    data, total := CollectPurchaseRows(imports);
    var arr := new PurchaseRow[|data|](k requires 0 <= k < |data| => data[k]);
    assert arr[..] == data;
    SortRowsByDay(arr);
    rows := arr[..];
    RowsTotalPermutation(rows, data);
  }

  // ---------------------------------------------------------------------------
  // Summary figures
  // ---------------------------------------------------------------------------

  /** The restock warning: products with less than ten in stock. */
  function LowStockCount(ps: seq<Product>): (n: nat)
    ensures n == |Filter(ps, (p: Product) => p.stock < LowStockThreshold)|
    ensures n <= |ps|
    decreases |ps|
  {
    if |ps| == 0 then 0
    else LowStockCount(ps[..|ps| - 1]) + (if ps[|ps| - 1].stock < LowStockThreshold then 1 else 0)
  }

  /** Every product the cleanup would remove is also flagged as low on stock. */
  lemma {:induction false} LowStockCoversCleanup(ps: seq<Product>)
    ensures CleanupCount(ps) <= LowStockCount(ps)
    decreases |ps|
  {
    if |ps| > 0 {
      LowStockCoversCleanup(ps[..|ps| - 1]);
    }
  }
}
