/**
 * The customers screen: the registered/guest split of each month's sales,
 * the five biggest spenders, the debt-collection dialog and the customer
 * form. The local calendar (year and month of a timestamp in the browser's
 * time zone) is a parameter.
 */
module Customers {
  import opened Types
  import opened Ledger
  import opened Sorting

  /** A month of the year as `getMonth` numbers it: January is 0. */
  type MonthIndex = m: int | 0 <= m < 12

  datatype CalendarDate = CalendarDate(year: int, month: MonthIndex)

  /** One bar of the monthly chart; `month` is the number shown after "T". */
  datatype MonthStat = MonthStat(month: int, registered: int, guest: int)

  /** A sale (or import) placed in the selected year of the local calendar. */
  predicate InYear(o: Order, year: int, localDate: int -> CalendarDate)
  {
    o.kind != Some(DebtCollection) && localDate(o.timestamp).year == year
  }

  /** An order is a registered customer's when its code is present and not GUEST. */
  predicate RegisteredBuyer(o: Order)
  {
    RegisteredCode(o.customerCode)
  }

  /** The orders placed in month `m` of the local calendar, in any year. */
  function InMonth(localDate: int -> CalendarDate, m: MonthIndex): Order -> bool
  {
    (o: Order) => localDate(o.timestamp).month == m
  }

  /** The bar of month `m`, folding the orders in ledger order. */
  function MonthBucket(orders: seq<Order>, year: int, localDate: int -> CalendarDate, m: MonthIndex): (r: MonthStat)
    ensures r.month == m + 1
    decreases |orders|
  {
    if |orders| == 0 then MonthStat(m + 1, 0, 0)
    else
      var prev := MonthBucket(orders[..|orders| - 1], year, localDate, m);
      var o := orders[|orders| - 1];
      if InYear(o, year, localDate) && localDate(o.timestamp).month == m then
        if RegisteredBuyer(o) then prev.(registered := prev.registered + o.totalAmount)
        else prev.(guest := prev.guest + o.totalAmount)
      else prev
  }

  /** The twelve bars, January first. */
  function MonthlyStatsOf(orders: seq<Order>, year: int, localDate: int -> CalendarDate): (r: seq<MonthStat>)
    ensures |r| == 12
    ensures forall m: MonthIndex :: r[m].month == m + 1
  {
    var r := seq(12, m requires 0 <= m < 12 => MonthBucket(orders, year, localDate, m));
    assert forall m: MonthIndex :: r[m] == MonthBucket(orders, year, localDate, m);
    r
  }

  /**
   * One more order adds its total to the registered or the guest column of
   * its own month, and touches nothing when it is a DEBT_COLLECTION entry or
   * falls in another year.
   */
  lemma AppendToMonth(orders: seq<Order>, o: Order, year: int, localDate: int -> CalendarDate, m: MonthIndex)
    ensures var before := MonthBucket(orders, year, localDate, m);
      var after := MonthBucket(orders + [o], year, localDate, m);
      && after.month == before.month
      && (!InYear(o, year, localDate) || localDate(o.timestamp).month != m ==> after == before)
      && (InYear(o, year, localDate) && localDate(o.timestamp).month == m && RegisteredBuyer(o) ==>
            after.registered == before.registered + o.totalAmount && after.guest == before.guest)
      && (InYear(o, year, localDate) && localDate(o.timestamp).month == m && !RegisteredBuyer(o) ==>
            after.guest == before.guest + o.totalAmount && after.registered == before.registered)
  {
    assert (orders + [o])[..|orders|] == orders;
  }

  /**
   * `getMonthlyStats`: twelve empty bars in an array, then each order in
   * turn adds its total to one column of its month's bar.
   */
  method MonthlyStats(orders: seq<Order>, year: int, localDate: int -> CalendarDate) returns (stats: seq<MonthStat>)
    ensures stats == MonthlyStatsOf(orders, year, localDate)
  {
    var data := new MonthStat[12](i => MonthStat(i + 1, 0, 0));
    var j := 0;
    while j < |orders|
      invariant 0 <= j <= |orders|
      invariant forall m: MonthIndex :: data[m] == MonthBucket(orders[..j], year, localDate, m)
    {
      var o := orders[j];
      assert orders[..j + 1] == orders[..j] + [o];
      forall m: MonthIndex
        ensures MonthBucket(orders[..j + 1], year, localDate, m) ==
          if InYear(o, year, localDate) && localDate(o.timestamp).month == m then
            if RegisteredBuyer(o) then data[m].(registered := data[m].registered + o.totalAmount)
            else data[m].(guest := data[m].guest + o.totalAmount)
          else data[m]
      {
        AppendToMonth(orders[..j], o, year, localDate, m);
      }
      if o.kind != Some(DebtCollection) {
        var date := localDate(o.timestamp);
        if date.year == year {
          var month := date.month;
          if RegisteredCode(o.customerCode) {
            data[month] := data[month].(registered := data[month].registered + o.totalAmount);
          } else {
            data[month] := data[month].(guest := data[month].guest + o.totalAmount);
          }
        }
      }
      j := j + 1;
    }
    assert orders[..j] == orders;
    stats := data[..];
  }

  /** Sum of the totals of the orders the chart counts for `year`. */
  function YearSales(orders: seq<Order>, year: int, localDate: int -> CalendarDate): int
    decreases |orders|
  {
    if |orders| == 0 then 0
    else
      var o := orders[|orders| - 1];
      YearSales(orders[..|orders| - 1], year, localDate) + (if InYear(o, year, localDate) then o.totalAmount else 0)
  }

  /** A bar's two columns together hold the year's sales placed in its month. */
  lemma {:induction false} MonthColumnsAreMonthSales(orders: seq<Order>, year: int, localDate: int -> CalendarDate,
                                                     m: MonthIndex)
    ensures var r := MonthBucket(orders, year, localDate, m);
      r.registered + r.guest == YearSales(Filter(orders, InMonth(localDate, m)), year, localDate)
    decreases |orders|
  {
    if |orders| > 0 {
      var init := orders[..|orders| - 1];
      var o := orders[|orders| - 1];
      MonthColumnsAreMonthSales(init, year, localDate, m);
      var kept := Filter(init, InMonth(localDate, m));
      if InMonth(localDate, m)(o) {
        assert Filter(orders, InMonth(localDate, m)) == kept + [o];
        assert (kept + [o])[..|kept|] == kept;
        assert YearSales(kept + [o], year, localDate) ==
          YearSales(kept, year, localDate) + (if InYear(o, year, localDate) then o.totalAmount else 0);
      } else {
        assert Filter(orders, InMonth(localDate, m)) == kept;
      }
    }
  }

  /** Both columns of every bar added together. */
  function BarsTotal(stats: seq<MonthStat>): int
    decreases |stats|
  {
    if |stats| == 0 then 0
    else BarsTotal(stats[..|stats| - 1]) + stats[|stats| - 1].registered + stats[|stats| - 1].guest
  }

  /** Changing one bar changes the total by the difference of the two bars. */
  lemma {:induction false} BarsTotalUpdate(stats: seq<MonthStat>, m: nat, bar: MonthStat)
    requires m < |stats|
    ensures BarsTotal(stats[m := bar]) ==
      BarsTotal(stats) - stats[m].registered - stats[m].guest + bar.registered + bar.guest
    decreases |stats|
  {
    var n := |stats| - 1;
    if m < n {
      BarsTotalUpdate(stats[..n], m, bar);
      assert stats[m := bar][..n] == stats[..n][m := bar];
    } else {
      assert stats[m := bar][..n] == stats[..n];
    }
  }

  /**
   * The chart accounts for every sale of the year exactly once: summed over
   * the months, the two columns give the year's sales, IMPORT orders
   * included.
   */
  lemma {:induction false} MonthlySplitCoversYear(orders: seq<Order>, year: int, localDate: int -> CalendarDate)
    ensures BarsTotal(MonthlyStatsOf(orders, year, localDate)) == YearSales(orders, year, localDate)
    decreases |orders|
  {
    if |orders| == 0 {
      var r := MonthlyStatsOf(orders, year, localDate);
      assert forall k :: 0 <= k <= 12 ==> BarsTotal(r[..k]) == 0 by {
        forall k | 0 <= k <= 12 ensures BarsTotal(r[..k]) == 0 {
          ZeroBars(r, k);
        }
      }
      assert r[..12] == r;
    } else {
      var init := orders[..|orders| - 1];
      var o := orders[|orders| - 1];
      assert orders == init + [o];
      MonthlySplitCoversYear(init, year, localDate);
      var before := MonthlyStatsOf(init, year, localDate);
      var after := MonthlyStatsOf(orders, year, localDate);
      forall m: MonthIndex ensures after[m] == before[m] || localDate(o.timestamp).month == m {
        AppendToMonth(init, o, year, localDate, m);
      }
      var mo := localDate(o.timestamp).month;
      AppendToMonth(init, o, year, localDate, mo);
      assert after == before[mo := after[mo]];
      BarsTotalUpdate(before, mo, after[mo]);
    }
  }

  lemma {:induction false} ZeroBars(r: seq<MonthStat>, k: nat)
    requires k <= |r|
    requires forall m :: 0 <= m < |r| ==> r[m].registered == 0 && r[m].guest == 0
    ensures BarsTotal(r[..k]) == 0
    decreases k
  {
    if k > 0 {
      assert r[..k][..k - 1] == r[..k - 1];
      ZeroBars(r, k - 1);
    }
  }

  /** The spender order of the ranking. */
  function TotalSpent(c: Customer): int
  {
    c.totalSpent
  }

  const TopCount: nat := 5

  /** `topCustomers`: a sorted copy of the list, cut to its first five. */
  function TopCustomers(cs: seq<Customer>): (r: seq<Customer>)
    ensures |r| == Min(TopCount, |cs|)
    ensures SortedDesc(r, TotalSpent)
    ensures multiset(r) <= multiset(cs)
  {
    var sorted := SortDesc(cs, TotalSpent);
    var r := sorted[..Min(TopCount, |cs|)];
    assert sorted == r + sorted[|r|..];
    r
  }

  /**
   * Nobody outside the ranking spent more than the last one in it, and a
   * list of at most five is ranked whole.
   */
  lemma TopCustomersAreTop(cs: seq<Customer>)
    ensures var r := TopCustomers(cs);
      && (|cs| <= TopCount ==> multiset(r) == multiset(cs))
      && (|r| > 0 ==> forall c :: c in cs && c.totalSpent > r[|r| - 1].totalSpent ==> c in r)
  {
    var sorted := SortDesc(cs, TotalSpent);
    var r := TopCustomers(cs);
    assert r == sorted[..|r|];
    if |cs| <= TopCount {
      assert r == sorted;
    }
    if |r| > 0 {
      forall c | c in cs && c.totalSpent > r[|r| - 1].totalSpent
        ensures c in r
      {
        assert c in multiset(sorted);
        var j :| 0 <= j < |sorted| && sorted[j] == c;
        assert forall k :: |r| <= k < |sorted| ==> sorted[k].totalSpent <= r[|r| - 1].totalSpent;
        assert j < |r|;
        assert r[j] == c;
      }
    }
  }

  /** The amount the debt dialog opens with: the whole balance (`debt || 0`). */
  function DefaultCollectAmount(c: Customer): (r: int)
    ensures r == c.debt
    ensures c.debt >= 0 ==> ReduceDebt(c, r).debt == 0
  {
    NonZeroOr(Some(c.debt), 0)
  }

  /** What the amount field keeps of an entry: never more than the balance. */
  function ClampCollectAmount(c: Customer, entered: int): (r: int)
    ensures r <= c.debt && r <= entered
    ensures r == c.debt || r == entered
  {
    Min(c.debt, entered)
  }

  /** The "remaining" line of the dialog. */
  function RemainingPreview(c: Customer, amount: int): (r: int)
    ensures r >= 0
    ensures r == ReduceDebt(c, amount).debt
  {
    Max(0, c.debt - amount)
  }

  /** The call `handleCollectDebt` makes on the store. */
  datatype CollectCall = CollectCall(customerId: string, amount: int, note: string)

  /** `handleCollectDebt`: nothing without a selected customer and a positive amount. */
  function CollectRequest(selected: Option<Customer>, amount: int, note: string): (r: Option<CollectCall>)
    ensures r.Some? <==> selected.Some? && amount > 0
    ensures r.Some? ==> r.value.customerId == selected.value.id && r.value.amount == amount && r.value.note == note
  {
    if selected.None? || amount <= 0 then None
    else Some(CollectCall(selected.value.id, amount, note))
  }

  /**
   * An amount the dialog lets through takes exactly that much off the
   * balance: the store never has to floor it, and the preview shows what the
   * store will keep.
   */
  lemma ClampedCollectIsExact(c: Customer, entered: int, note: string)
    requires c.debt >= 0
    ensures var amount := ClampCollectAmount(c, entered);
      CollectRequest(Some(c), amount, note).Some? ==>
        && 0 < amount <= c.debt
        && ReduceDebt(c, amount).debt == c.debt - amount
        && RemainingPreview(c, amount) == c.debt - amount
  {
  }

  /** The customer form; a new record starts from `NewCustomerForm`, an edit from the record. */
  datatype CustomerForm = CustomerForm(
    code: string,
    name: string,
    phone: string,
    group: CustomerGroup,
    totalSpent: int,
    debt: int)

  function NewCustomerForm(): (f: CustomerForm)
    ensures f.group == Retail && f.totalSpent == 0 && f.debt == 0
    ensures f.code == "" && f.name == "" && f.phone == ""
  {
    CustomerForm("", "", "", Retail, 0, 0)
  }

  function EditCustomerForm(c: Customer): (f: CustomerForm)
    ensures f.code == c.code && f.name == c.name && f.phone == c.phone && f.group == c.group
    ensures f.totalSpent == c.totalSpent && f.debt == c.debt
  {
    CustomerForm(c.code, c.name, c.phone, c.group, c.totalSpent, c.debt)
  }

  /**
   * `handleSave`: the record written for the form, or nothing when the name
   * or the code is empty. An edit keeps the record's id and its last
   * purchase date, except that a date of 0 is dropped by the `|| undefined`.
   */
  function CustomerRecord(form: CustomerForm, editing: Option<Customer>, newId: string): (r: Option<Customer>)
    ensures r.None? <==> form.name == "" || form.code == ""
    ensures r.Some? ==>
      && r.value.code == form.code && r.value.name == form.name && r.value.phone == form.phone
      && r.value.group == form.group && r.value.totalSpent == form.totalSpent && r.value.debt == form.debt
      && r.value.id == (if editing.Some? then editing.value.id else newId)
      && (editing.None? ==> r.value.lastPurchaseDate.None?)
      && (editing.Some? && editing.value.lastPurchaseDate != Some(0) ==>
            r.value.lastPurchaseDate == editing.value.lastPurchaseDate)
      && r.value.lastPurchaseDate != Some(0)
  {
    if form.name == "" || form.code == "" then None
    else
      var last :=
        if editing.Some? && editing.value.lastPurchaseDate.Some? && editing.value.lastPurchaseDate.value != 0
        then editing.value.lastPurchaseDate else None;
      Some(Customer(
        if editing.Some? then editing.value.id else newId,
        form.code, form.name, OrElse(Some(form.phone), ""), form.group,
        NonZeroOr(Some(form.totalSpent), 0), NonZeroOr(Some(form.debt), 0), last))
  }

  /** Saving an unchanged edit form writes the record back as it was (a 0 date aside). */
  lemma EditRoundTrip(c: Customer, newId: string)
    requires c.name != "" && c.code != ""
    ensures CustomerRecord(EditCustomerForm(c), Some(c), newId) ==
      Some(if c.lastPurchaseDate == Some(0) then c.(lastPurchaseDate := None) else c)
  {
  }

  /** A new customer with only a code and a name is a RETAIL record with nothing spent or owed. */
  lemma NewRecordDefaults(code: string, name: string, newId: string)
    requires code != "" && name != ""
    ensures CustomerRecord(NewCustomerForm().(code := code, name := name), None, newId) ==
      Some(Customer(newId, code, name, "", Retail, 0, 0, None))
  {
  }

  /** `filteredCustomers`: name or code contain the term ignoring case, or the phone contains it. */
  predicate CustomerMatches(c: Customer, term: string)
  {
    Includes(ToLower(c.name), ToLower(term)) || Includes(ToLower(c.code), ToLower(term)) || Includes(c.phone, term)
  }

  function SearchCustomers(cs: seq<Customer>, term: string): (r: seq<Customer>)
    ensures forall c :: c in r <==> c in cs && CustomerMatches(c, term)
  {
    Filter(cs, (c: Customer) => CustomerMatches(c, term))
  }

  /** An empty search lists every customer. */
  lemma {:induction false} EmptySearchListsAll(cs: seq<Customer>)
    ensures SearchCustomers(cs, "") == cs
  {
    forall i | 0 <= i < |cs| ensures CustomerMatches(cs[i], "") {
      assert "" <= ToLower(cs[i].name);
    }
    FilterKeepsAll(cs, (c: Customer) => CustomerMatches(c, ""));
  }
}
