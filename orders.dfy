/**
 * The orders screen: the ledger newest first, the search box and the
 * debt-only switch, and the dialog that settles one order's debt.
 */
module Orders {
  import opened Types
  import opened Ledger
  import opened Sorting

  function Timestamp(o: Order): int
  {
    o.timestamp
  }

  /** The list as loaded: newest first. */
  function LoadedOrders(orders: seq<Order>): (r: seq<Order>)
    ensures SortedDesc(r, Timestamp)
    ensures multiset(r) == multiset(orders)
  {
    SortDesc(orders, Timestamp)
  }

  /** The list shows every stored order and nothing else. */
  lemma LoadedOrdersAreTheLedger(orders: seq<Order>)
    ensures |LoadedOrders(orders)| == |orders|
    ensures forall o :: o in LoadedOrders(orders) <==> o in orders
  {
    var r := LoadedOrders(orders);
    assert |r| == |multiset(r)| == |multiset(orders)| == |orders|;
    forall o ensures o in r <==> o in orders {
      assert o in r <==> o in multiset(r);
      assert o in orders <==> o in multiset(orders);
    }
  }

  /** The search box: the id, or a non-empty customer code, contains the term ignoring case. */
  predicate MatchesSearch(o: Order, term: string)
  {
    || Includes(ToLower(o.id), ToLower(term))
    || (o.customerCode.Some? && o.customerCode.value != "" &&
        Includes(ToLower(o.customerCode.value), ToLower(term)))
  }

  /** The debt-only switch: DEBT and PARTIAL orders when on, every order when off. */
  predicate MatchesDebt(o: Order, debtOnly: bool)
  {
    debtOnly ==> o.paymentStatus == Debt || o.paymentStatus == Partial
  }

  /** `filteredOrders`. */
  function FilteredOrders(orders: seq<Order>, term: string, debtOnly: bool): (r: seq<Order>)
    ensures |r| <= |orders|
    ensures forall o :: o in r <==> o in orders && MatchesSearch(o, term) && MatchesDebt(o, debtOnly)
  {
    Filter(orders, (o: Order) => MatchesSearch(o, term) && MatchesDebt(o, debtOnly))
  }

  /** With the switch on, exactly the matching orders that still owe (DEBT or PARTIAL) are listed. */
  lemma DebtOnlyKeepsExactlyOwing(orders: seq<Order>, term: string)
    ensures forall o :: o in FilteredOrders(orders, term, true) <==>
      o in orders && MatchesSearch(o, term) && o.paymentStatus != Paid
  {
  }

  /** With an empty search and the switch off, the list is shown unfiltered. */
  lemma {:induction false} NoFilterShowsAll(orders: seq<Order>)
    ensures FilteredOrders(orders, "", false) == orders
  {
    forall i | 0 <= i < |orders| ensures MatchesSearch(orders[i], "") && MatchesDebt(orders[i], false) {
      assert "" <= ToLower(orders[i].id);
    }
    FilterKeepsAll(orders, (o: Order) => MatchesSearch(o, "") && MatchesDebt(o, false));
  }

  /** The pay-debt action is offered only on an order that still owes something. */
  predicate CanPayDebt(o: Order)
  {
    o.debtAmount > 0
  }

  /** What the pay dialog opens with: the whole debt, and a note naming the order. */
  datatype PayDialog = PayDialog(amount: int, note: string)

  function OpenPayDialog(o: Order): (r: PayDialog)
    ensures r.amount == o.debtAmount
    ensures r.note == "Thu nợ đơn #" + ShortRef(o.id)
  {
    PayDialog(o.debtAmount, "Thu nợ đơn #" + ShortRef(o.id))
  }

  /** What the amount field keeps of an entry: never more than the order owes. */
  function ClampPayAmount(o: Order, entered: int): (r: int)
    ensures r <= o.debtAmount && r <= entered
    ensures r == o.debtAmount || r == entered
  {
    Min(o.debtAmount, entered)
  }

  /** The call `handleSettleOrderDebt` makes on the store. */
  datatype SettleCall = SettleCall(orderId: string, amount: int, note: string)

  /** `handleSettleOrderDebt`: nothing without a selected order and a positive amount. */
  function SettleRequest(selected: Option<Order>, amount: int, note: string): (r: Option<SettleCall>)
    ensures r.Some? <==> selected.Some? && amount > 0
    ensures r.Some? ==> r.value.orderId == selected.value.id && r.value.amount == amount && r.value.note == note
  {
    if selected.None? || amount <= 0 then None
    else Some(SettleCall(selected.value.id, amount, note))
  }

  /**
   * A settlement the dialog sends for a listed order that is offered the
   * action is accepted by the store (ids being unique), and the amount is
   * paid in full: the order's debt falls by exactly that much.
   */
  lemma DialogSettlementAccepted(orders: seq<Order>, o: Order, entered: int, note: string,
                                 paidText: string, dateText: string)
    requires DistinctKeys(orders, OrderKey)
    requires o in orders && CanPayDebt(o)
    ensures var amount := ClampPayAmount(o, entered);
      SettleRequest(Some(o), amount, note).Some? ==>
        && SettlementError(orders, o.id).None?
        && orders[KeyIndex(orders, OrderKey, o.id).value] == o
        && 0 < amount <= o.debtAmount
        && SettleOrder(o, amount, paidText, dateText).debtAmount == o.debtAmount - amount
  {
    var j :| 0 <= j < |orders| && orders[j] == o;
    var k := KeyIndex(orders, OrderKey, o.id);
    assert k.Some?;
    assert orders[k.value].id == o.id;
  }

  /** The dialog's opening amount settles the order completely. */
  lemma DefaultPaysInFull(o: Order, paidText: string, dateText: string)
    requires CanPayDebt(o)
    ensures var amount := OpenPayDialog(o).amount;
      && SettleRequest(Some(o), amount, "").Some?
      && SettleOrder(o, amount, paidText, dateText).debtAmount == 0
      && SettleOrder(o, amount, paidText, dateText).paymentStatus == Paid
  {
  }
}
