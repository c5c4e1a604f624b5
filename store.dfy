/**
 * The data service on its local path: three collections kept in memory and
 * rewritten by each operation, as the browser-storage blobs are. Each method
 * reads the collection through the same normalisation the service applies
 * on every read, changes it step by step, and writes it back; its
 * postcondition names the new state as a function from module Ledger.
 */
module Store {
  import opened Types
  import opened Ledger

  class LedgerStore {
    var products: seq<Product>
    var customers: seq<Customer>
    var orders: seq<Order>

    /** No customer owes a negative balance and no order carries negative debt. */
    predicate Valid()
      reads this
    {
      DebtsNonNegative(customers) && OrderDebtsNonNegative(orders)
    }

    constructor (products: seq<Product>, customers: seq<Customer>, orders: seq<Order>)
      ensures this.products == products && this.customers == customers && this.orders == orders
      ensures DebtsNonNegative(customers) && OrderDebtsNonNegative(orders) ==> Valid()
    {
      this.products := products;
      this.customers := customers;
      this.orders := orders;
    }

    /** What `getProducts` returns: the stored products with their codes filled in. */
    function Products(): (r: seq<Product>)
      reads this
      ensures |r| == |products|
      ensures forall i :: 0 <= i < |r| ==> r[i] == NormalizeProduct(products[i])
      ensures forall i :: 0 <= i < |r| ==> r[i].code != ""
      ensures forall i :: 0 <= i < |r| && products[i].code != "" ==> r[i] == products[i]
      ensures forall i :: 0 <= i < |r| && products[i].code == "" ==> r[i].code == "SP" + products[i].id
    {
      NormalizeProducts(products)
    }

    method SaveProduct(p: Product)
      modifies this
      ensures products == Upsert(NormalizeProducts(old(products)), p, ProductKey)
      ensures customers == old(customers) && orders == old(orders)
    {
      var ps := NormalizeProducts(products);
      var index := KeyIndex(ps, ProductKey, p.id);
      if index.Some? {
        ps := ps[index.value := p];
      } else {
        ps := ps + [p];
      }
      products := ps;
    }

    method SaveCustomer(c: Customer)
      modifies this
      ensures customers == Upsert(old(customers), c, CustomerKey)
      ensures products == old(products) && orders == old(orders)
      ensures old(Valid()) && c.debt >= 0 ==> Valid()
    {
      var cs := customers;
      var index := KeyIndex(cs, CustomerKey, c.id);
      if index.Some? {
        cs := cs[index.value := c];
      } else {
        cs := cs + [c];
      }
      customers := cs;
    }

    method DeleteProduct(id: string)
      modifies this
      ensures products == RemoveKey(NormalizeProducts(old(products)), ProductKey, id)
      ensures customers == old(customers) && orders == old(orders)
    {
      products := RemoveKey(NormalizeProducts(products), ProductKey, id);
    }

    method DeleteCustomer(id: string)
      modifies this
      ensures customers == RemoveKey(old(customers), CustomerKey, id)
      ensures products == old(products) && orders == old(orders)
      ensures old(Valid()) ==> Valid()
    {
      customers := RemoveKey(customers, CustomerKey, id);
      if old(Valid()) {
        forall j | 0 <= j < |customers| ensures customers[j].debt >= 0 {
          assert customers[j] in old(customers);
        }
      }
    }

    /**
     * Remove every non-service product with no stock; the count returned is
     * the number of such products. Nothing is written when there are none.
     */
    method DeleteOutOfStockProducts() returns (count: nat)
      modifies this
      ensures count == |Filter(NormalizeProducts(old(products)), OutOfStock)|
      ensures count == 0 ==> products == old(products)
      ensures count > 0 ==> products == AfterCleanup(NormalizeProducts(old(products)))
      ensures customers == old(customers) && orders == old(orders)
    {
      var ps := NormalizeProducts(products);
      var ids := OutOfStockIds(ps);
      if |ids| == 0 {
        return 0;
      }
      products := AfterCleanup(ps);
      count := |ids|;
    }

    /**
     * Commit an order. An id already in the ledger makes this a no-op.
     * Otherwise the order (typed SALE when untyped) is appended; a SALE takes
     * its quantities off stock, an IMPORT re-costs and restocks; and then the
     * customer named by the order's code is credited, created when unknown.
     */
    method CreateOrder(order: Order, quickCustomerName: string, newCustomerId: string)
      modifies this
      ensures (exists j :: 0 <= j < |old(orders)| && old(orders)[j].id == order.id) ==>
        products == old(products) && customers == old(customers) && orders == old(orders)
      ensures (forall j :: 0 <= j < |old(orders)| ==> old(orders)[j].id != order.id) ==>
        var o := if order.kind.None? then order.(kind := Some(Sale)) else order;
        && orders == old(orders) + [o]
        && products == (if o.kind == Some(Sale) then SellItems(NormalizeProducts(old(products)), o.items)
                        else if o.kind == Some(Import) then ReceiveItems(NormalizeProducts(old(products)), o.items)
                        else old(products))
        && customers == PostPurchase(old(customers), o, quickCustomerName, newCustomerId)
      ensures old(Valid()) && order.debtAmount >= 0 ==> Valid()
    {
      if KeyIndex(orders, OrderKey, order.id).Some? {
        return;
      }
      var o := if order.kind.None? then order.(kind := Some(Sale)) else order;
      Commit(o, quickCustomerName, newCustomerId);
    }

    /** The writes of `createOrder` once the id is known to be new and the order is typed. */
    method Commit(o: Order, quickCustomerName: string, newCustomerId: string)
      modifies this
      ensures orders == old(orders) + [o]
      ensures products == (if o.kind == Some(Sale) then SellItems(NormalizeProducts(old(products)), o.items)
                           else if o.kind == Some(Import) then ReceiveItems(NormalizeProducts(old(products)), o.items)
                           else old(products))
      ensures customers == PostPurchase(old(customers), o, quickCustomerName, newCustomerId)
      ensures old(Valid()) && o.debtAmount >= 0 ==> Valid()
    {
      var ps := ApplyStock(products, o);
      var cs := PostToCustomer(customers, o, quickCustomerName, newCustomerId);
      assert Valid() && o.debtAmount >= 0 ==> OrderDebtsNonNegative(orders + [o]);
      orders, products, customers := orders + [o], ps, cs;
    }

    /**
     * Take a payment against a customer's running balance: the balance falls
     * by `amount`, floored at zero, and a DEBT_COLLECTION entry is appended.
     * An unknown customer id is refused and nothing changes.
     */
    method CollectDebt(customerId: string, amount: int, note: Option<string>, logId: string, now: int)
      returns (err: Option<LedgerError>)
      modifies this
      ensures err.Some? <==> forall j :: 0 <= j < |old(customers)| ==> old(customers)[j].id != customerId
      ensures err.Some? ==>
        && err == Some(CustomerNotFound)
        && products == old(products) && customers == old(customers) && orders == old(orders)
      ensures err.None? ==>
        var i := KeyIndex(old(customers), CustomerKey, customerId).value;
        && customers == old(customers)[i := ReduceDebt(old(customers)[i], amount)]
        && orders == old(orders) + [DebtPaymentLog(logId, now, old(customers)[i], amount, note)]
        && products == old(products)
      ensures old(Valid()) ==> Valid()
    {
      var found := KeyIndex(customers, CustomerKey, customerId);
      if found.None? {
        return Some(CustomerNotFound);
      }
      var i := found.value;
      var c := customers[i];
      c := c.(debt := Max(0, c.debt - amount));
      customers := customers[i := c];
      var log := DebtPaymentLog(logId, now, c, amount, note);
      orders := orders + [log];
      err := None;
    }

    /**
     * Settle up to `amount` of one order's debt: the order is updated in
     * place, a registered customer's balance falls by the amount paid, and a
     * DEBT_COLLECTION entry is appended. An unknown order, or one that owes
     * nothing, is refused and nothing changes.
     */
    method PayOrderDebt(orderId: string, amount: int, note: Option<string>, logId: string, now: int,
                        paidText: string, dateText: string)
      returns (err: Option<LedgerError>)
      modifies this
      ensures err == SettlementError(old(orders), orderId)
      ensures err.Some? ==> products == old(products) && customers == old(customers) && orders == old(orders)
      ensures err.None? ==>
        var i := KeyIndex(old(orders), OrderKey, orderId).value;
        var paid := Min(amount, old(orders)[i].debtAmount);
        var settled := SettleOrder(old(orders)[i], amount, paidText, dateText);
        && orders == old(orders)[i := settled] + [SettlementLog(logId, now, settled, paid, note)]
        && customers == SettleCustomers(old(customers), settled, paid)
        && products == old(products)
      ensures old(Valid()) ==> Valid()
    {
      var found := KeyIndex(orders, OrderKey, orderId);
      if found.None? {
        return Some(OrderNotFound);
      }
      var i := found.value;
      if orders[i].debtAmount <= 0 {
        return Some(NothingOwed);
      }
      assert SettlementError(orders, orderId).None?;
      SettleAt(i, amount, note, logId, now, paidText, dateText);
      err := None;
    }

    /** The writes of `payOrderDebt` once order `i` is found and owes something. */
    method SettleAt(i: nat, amount: int, note: Option<string>, logId: string, now: int,
                    paidText: string, dateText: string)
      requires i < |orders| && orders[i].debtAmount > 0
      modifies this
      ensures var paid := Min(amount, old(orders)[i].debtAmount);
        var settled := SettleOrder(old(orders)[i], amount, paidText, dateText);
        && orders == old(orders)[i := settled] + [SettlementLog(logId, now, settled, paid, note)]
        && customers == SettleCustomers(old(customers), settled, paid)
        && products == old(products)
      ensures var code := old(orders)[i].customerCode;
        var paid := Min(amount, old(orders)[i].debtAmount);
        && (!RegisteredCode(code) ==> customers == old(customers))
        && (RegisteredCode(code) && KeyIndex(old(customers), CustomerCodeKey, code.value).None? ==>
              customers == old(customers))
        && (RegisteredCode(code) && KeyIndex(old(customers), CustomerCodeKey, code.value).Some? ==>
              var k := KeyIndex(old(customers), CustomerCodeKey, code.value).value;
              customers == old(customers)[k := old(customers)[k].(debt := Max(0, old(customers)[k].debt - paid))])
      ensures old(Valid()) ==> Valid()
    {
      var paid := Min(amount, orders[i].debtAmount);
      var settled := SettleOrder(orders[i], amount, paidText, dateText);
      var os := orders[i := settled] + [SettlementLog(logId, now, settled, paid, note)];
      assert settled.customerCode == orders[i].customerCode;
      var cs := SettleBalance(customers, settled, paid);
      assert OrderDebtsNonNegative(orders) ==> OrderDebtsNonNegative(os);
      orders, customers := os, cs;
    }
  }

  /**
   * The customer pass of `payOrderDebt`: for a registered code, search for
   * the first customer with that code and lower their balance by the amount
   * paid, floored at zero.
   */
  method SettleBalance(cs: seq<Customer>, settled: Order, paid: int) returns (r: seq<Customer>)
    ensures r == SettleCustomers(cs, settled, paid)
    ensures DebtsNonNegative(cs) ==> DebtsNonNegative(r)
    ensures var code := settled.customerCode;
      && (!RegisteredCode(code) ==> r == cs)
      && (RegisteredCode(code) && KeyIndex(cs, CustomerCodeKey, code.value).None? ==> r == cs)
      && (RegisteredCode(code) && KeyIndex(cs, CustomerCodeKey, code.value).Some? ==>
            var k := KeyIndex(cs, CustomerCodeKey, code.value).value;
            r == cs[k := cs[k].(debt := Max(0, cs[k].debt - paid))])
  {
    r := cs;
    if RegisteredCode(settled.customerCode) {
      var code := settled.customerCode.value;
      var k := 0;
      while k < |cs| && cs[k].code != code
        invariant 0 <= k <= |cs|
        invariant forall j :: 0 <= j < k ==> cs[j].code != code
      {
        k := k + 1;
      }
      if k < |cs| {
        assert KeyIndex(cs, CustomerCodeKey, code) == Some(k);
        r := r[k := cs[k].(debt := Max(0, cs[k].debt - paid))];
      } else {
        assert KeyIndex(cs, CustomerCodeKey, code).None?;
      }
    }
  }

  /** The stock pass of `createOrder`: a SALE sells its lines, an IMPORT receives them, any other type leaves stock alone. */
  method ApplyStock(stored: seq<Product>, o: Order) returns (ps: seq<Product>)
    ensures ps == (if o.kind == Some(Sale) then SellItems(NormalizeProducts(stored), o.items)
                   else if o.kind == Some(Import) then ReceiveItems(NormalizeProducts(stored), o.items)
                   else stored)
  {
    ps := stored;
    if o.kind == Some(Sale) {
      ps := ApplySale(NormalizeProducts(stored), o.items);
    } else if o.kind == Some(Import) {
      ps := ApplyImport(NormalizeProducts(stored), o.items);
    }
  }

  /** The SALE pass of `createOrder`: each line, in order, taken off the stock of its product. */
  method ApplySale(base: seq<Product>, items: seq<OrderItem>) returns (ps: seq<Product>)
    ensures ps == SellItems(base, items)
    ensures |ps| == |base|
    ensures forall k :: 0 <= k < |base| && FirstOfItsId(base, k) ==>
      ps[k] == base[k].(stock := base[k].stock - QuantityFor(items, base[k].id))
  {
    ps := base;
    var i := 0;
    while i < |items|
      invariant 0 <= i <= |items|
      invariant ps == SellItems(base, items[..i])
    {
      var p := ProductIndex(ps, items[i].productId);
      if p.Some? {
        ps := ps[p.value := ps[p.value].(stock := ps[p.value].stock - items[i].quantity)];
      }
      assert items[..i + 1][..i] == items[..i];
      i := i + 1;
    }
    assert items[..i] == items;
    SellItemsEffect(base, items);
  }

  /** The IMPORT pass of `createOrder`: each line re-costs and restocks its product. */
  method ApplyImport(base: seq<Product>, items: seq<OrderItem>) returns (ps: seq<Product>)
    ensures ps == ReceiveItems(base, items)
    ensures |ps| == |base|
    ensures forall k :: 0 <= k < |base| ==> ps[k].id == base[k].id
    ensures forall k :: 0 <= k < |base| && FirstOfItsId(base, k) ==>
      ps[k].stock == base[k].stock + QuantityFor(items, base[k].id)
  {
    ps := base;
    var i := 0;
    while i < |items|
      invariant 0 <= i <= |items|
      invariant ps == ReceiveItems(base, items[..i])
    {
      var p := ProductIndex(ps, items[i].productId);
      if p.Some? {
        var k := p.value;
        var q := ps[k];
        ps := ps[k := q.(cost := WeightedCost(q.stock, q.cost, items[i].quantity, items[i].price),
                            stock := q.stock + items[i].quantity)];
      }
      assert items[..i + 1][..i] == items[..i];
      i := i + 1;
    }
    assert items[..i] == items;
    ReceiveItemsStock(base, items);
  }

  /** The customer pass of `createOrder`: find by code or create, then credit. */
  method PostToCustomer(cs: seq<Customer>, o: Order, quickName: string, newId: string) returns (r: seq<Customer>)
    ensures r == PostPurchase(cs, o, quickName, newId)
    ensures |r| == |cs| || |r| == |cs| + 1
    ensures exists j :: 0 <= j < |r| && r[j].code == EffectiveCode(o.customerCode) && r[j].lastPurchaseDate == Some(o.timestamp)
    ensures DebtsNonNegative(cs) && o.debtAmount >= 0 ==> DebtsNonNegative(r)
  {
    var code := EffectiveCode(o.customerCode);
    var found := KeyIndex(cs, CustomerCodeKey, code);
    r := cs;
    var at: nat;
    if found.Some? {
      at := found.value;
    } else {
      r := r + [NewCustomer(code, quickName, newId)];
      at := |r| - 1;
    }
    r := r[at := Credit(r[at], o)];
    assert r[at].code == code && r[at].lastPurchaseDate == Some(o.timestamp);
    if DebtsNonNegative(cs) && o.debtAmount >= 0 {
      PostPurchaseKeepsDebtsNonNegative(cs, o, quickName, newId);
    }
  }
}
