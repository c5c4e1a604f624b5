/**
 * The ledger rules of the shop's data service, as functions of the
 * collections they read: the read-side normalisation, the local upsert and
 * filter delete, the stock and weighted-average cost effects of a committed
 * order, the customer posting that follows every commit, and the two debt
 * settlement paths. The `LedgerStore` class in module Store applies them to
 * its collections step by step.
 */
module Ledger {
  import opened Types

  const GuestCode: string := "GUEST"
  const GuestName: string := "Khách lẻ vãng lai"

  datatype LedgerError = CustomerNotFound | OrderNotFound | NothingOwed

  // ---------------------------------------------------------------------------
  // Entity store: normalisation on read, upsert by id, delete by id
  // ---------------------------------------------------------------------------

  /** A product read back without a code gets `SP` followed by its id. */
  function NormalizeProduct(p: Product): (r: Product)
    ensures r.code != ""
    ensures r == p.(code := r.code)
    ensures p.code != "" ==> r == p
    ensures p.code == "" ==> r.code == "SP" + p.id
  {
    if p.code == "" then p.(code := "SP" + p.id) else p
  }

  /** Every product read back, in stored order, with its code filled in. */
  function NormalizeProducts(ps: seq<Product>): (r: seq<Product>)
    ensures |r| == |ps|
    ensures forall i :: 0 <= i < |ps| ==> r[i] == NormalizeProduct(ps[i])
    ensures forall i :: 0 <= i < |ps| ==> r[i].code != "" && r[i] == ps[i].(code := r[i].code)
    ensures forall i :: 0 <= i < |ps| && ps[i].code != "" ==> r[i] == ps[i]
    ensures forall i :: 0 <= i < |ps| && ps[i].code == "" ==> r[i].code == "SP" + ps[i].id
  {
    seq(|ps|, i requires 0 <= i < |ps| => NormalizeProduct(ps[i]))
  }

  lemma NormalizeProductsIdempotent(ps: seq<Product>)
    ensures NormalizeProducts(NormalizeProducts(ps)) == NormalizeProducts(ps)
  {
  }

  /**
   * Replace the first element with the same key, otherwise append. Afterwards
   * a lookup by that key finds exactly `x`, and every element with another
   * key keeps its place.
   */
  function Upsert<T>(s: seq<T>, x: T, key: T -> string): (r: seq<T>)
    ensures |r| == |s| <==> KeyIndex(s, key, key(x)).Some?
    ensures |r| == |s| || |r| == |s| + 1
    ensures forall i :: 0 <= i < |s| && key(s[i]) != key(x) ==> r[i] == s[i]
    ensures KeyIndex(r, key, key(x)).Some? && r[KeyIndex(r, key, key(x)).value] == x
  {
    match KeyIndex(s, key, key(x))
    case Some(i) =>
      var r := s[i := x];
      assert key(r[i]) == key(x);
      assert forall j :: 0 <= j < i ==> r[j] == s[j];
      r
    case None =>
      var r := s + [x];
      assert key(r[|s|]) == key(x);
      assert forall j :: 0 <= j < |s| ==> r[j] == s[j];
      r
  }

  /** Saving the same record twice is the same as saving it once. */
  lemma UpsertIdempotent<T>(s: seq<T>, x: T, key: T -> string)
    ensures Upsert(Upsert(s, x, key), x, key) == Upsert(s, x, key)
  {
    var r := Upsert(s, x, key);
    var k := KeyIndex(r, key, key(x));
    assert r[k.value := x] == r;
  }

  /** Upserting keeps the keys of a collection distinct. */
  lemma UpsertKeepsKeysDistinct<T>(s: seq<T>, x: T, key: T -> string)
    requires DistinctKeys(s, key)
    ensures DistinctKeys(Upsert(s, x, key), key)
  {
    var r := Upsert(s, x, key);
    forall i, j | 0 <= i < j < |r| ensures key(r[i]) != key(r[j]) {
      var k := KeyIndex(s, key, key(x));
      if k.Some? {
        if i != k.value && j != k.value {
          assert r[i] == s[i] && r[j] == s[j];
        } else if i == k.value {
          assert key(s[j]) != key(s[i]);
        } else {
          assert key(s[i]) != key(s[j]);
        }
      } else {
        if j == |s| {
          assert key(s[i]) != key(x);
        } else {
          assert r[i] == s[i] && r[j] == s[j];
        }
      }
    }
  }

  /** The local delete: every element with that key is filtered out. */
  function RemoveKey<T(!new)>(s: seq<T>, key: T -> string, k: string): (r: seq<T>)
    ensures forall y :: y in r <==> y in s && key(y) != k
    ensures |r| <= |s|
  {
    Filter(s, (y: T) => key(y) != k)
  }

  /** The out-of-stock rule of the bulk cleanup; services are never removed. */
  predicate OutOfStock(p: Product)
  {
    p.stock <= 0 && p.category != PhotoService
  }

  function OutOfStockIds(ps: seq<Product>): (ids: seq<string>)
    ensures |ids| == |Filter(ps, OutOfStock)|
    ensures forall i :: 0 <= i < |ids| ==> ids[i] == Filter(ps, OutOfStock)[i].id
  {
    var out := Filter(ps, OutOfStock);
    seq(|out|, i requires 0 <= i < |out| => out[i].id)
  }

  /** What the cleanup keeps: products whose id is not among the out-of-stock ids. */
  function AfterCleanup(ps: seq<Product>): (r: seq<Product>)
    ensures forall p :: p in r ==> p in ps && !OutOfStock(p)
  {
    var ids := OutOfStockIds(ps);
    var r := Filter(ps, (p: Product) => p.id !in ids);
    forall p | p in ps && OutOfStock(p) ensures p.id in ids {
      var out := Filter(ps, OutOfStock);
      assert p in out;
      var i :| 0 <= i < |out| && out[i] == p;
      assert ids[i] == p.id;
    }
    r
  }

  /** With distinct ids the cleanup keeps exactly the products still in stock. */
  lemma AfterCleanupExact(ps: seq<Product>)
    requires DistinctKeys(ps, ProductKey)
    ensures forall p :: p in AfterCleanup(ps) <==> p in ps && !OutOfStock(p)
  {
    var ids := OutOfStockIds(ps);
    var out := Filter(ps, OutOfStock);
    forall p | p in ps && !OutOfStock(p) ensures p in AfterCleanup(ps) {
      var a :| 0 <= a < |ps| && ps[a] == p;
      forall i | 0 <= i < |ids| ensures ids[i] != p.id {
        var q := out[i];
        assert q in ps && OutOfStock(q);
        var b :| 0 <= b < |ps| && ps[b] == q;
        assert a != b;
        assert ProductKey(ps[a]) != ProductKey(ps[b]);
      }
    }
  }

  // ---------------------------------------------------------------------------
  // Costing: weighted-average cost of an import
  // ---------------------------------------------------------------------------

  /** `Math.round(n / d)` for a positive denominator: halves round up. */
  function RoundDiv(n: int, d: int): (r: int)
    requires d > 0
    ensures d * (2 * r - 1) <= 2 * n < d * (2 * r + 1)
  {
    var q := (2 * n + d) / (2 * d);
    var m := (2 * n + d) % (2 * d);
    assert 2 * n + d == q * (2 * d) + m && 0 <= m < 2 * d;
    assert d * (2 * q - 1) == q * (2 * d) - d;
    assert d * (2 * q + 1) == q * (2 * d) + d;
    q
  }

  /**
   * Unit cost after `qty` units arrive at `price`. Negative stock counts as
   * none; when no units result the import price is taken as it is.
   */
  function WeightedCost(stock: int, cost: int, qty: int, price: int): (r: int)
    ensures var s := Max(0, stock);
      s + qty > 0 ==> (s + qty) * (2 * r - 1) <= 2 * (s * cost + qty * price) < (s + qty) * (2 * r + 1)
    ensures Max(0, stock) + qty <= 0 ==> r == price
  {
    var s := Max(0, stock);
    if s + qty > 0 then RoundDiv(s * cost + qty * price, s + qty) else price
  }

  /** A weighted average of two costs never leaves the range they span. */
  lemma WeightedCostBetween(stock: int, cost: int, qty: int, price: int)
    requires qty > 0
    ensures Min(cost, price) <= WeightedCost(stock, cost, qty, price) <= Max(cost, price)
    ensures stock <= 0 ==> WeightedCost(stock, cost, qty, price) == price
  {
    var s := Max(0, stock);
    var r := WeightedCost(stock, cost, qty, price);
    AverageInRange(s, qty, cost, price);
    RoundedInRange(s * cost + qty * price, s + qty, r, Min(cost, price), Max(cost, price));
    if stock <= 0 {
      RoundedInRange(s * cost + qty * price, s + qty, r, price, price);
    }
  }

  /** The weighted sum of two costs lies between the extremes times the weight. */
  lemma AverageInRange(s: int, q: int, cost: int, price: int)
    requires s >= 0 && q > 0
    ensures (s + q) * Min(cost, price) <= s * cost + q * price <= (s + q) * Max(cost, price)
    ensures s == 0 ==> s * cost + q * price == (s + q) * price
  {
    var lo, hi := Min(cost, price), Max(cost, price);
    MulLeft(s, lo, cost);
    MulLeft(q, lo, price);
    MulLeft(s, cost, hi);
    MulLeft(q, price, hi);
    assert (s + q) * lo == s * lo + q * lo;
    assert (s + q) * hi == s * hi + q * hi;
  }

  /** A rounded quotient of a value between d·lo and d·hi lies between lo and hi. */
  lemma RoundedInRange(n: int, d: int, r: int, lo: int, hi: int)
    requires d > 0
    requires d * (2 * r - 1) <= 2 * n < d * (2 * r + 1)
    requires d * lo <= n <= d * hi
    ensures lo <= r <= hi
  {
    assert d * (2 * hi) == 2 * (d * hi);
    assert d * (2 * lo) == 2 * (d * lo);
    CancelLeft(d, 2 * r - 1, 2 * hi);
    CancelLeft(d, 2 * lo, 2 * r + 1);
  }

  lemma MulLeft(k: int, a: int, b: int)
    requires k >= 0 && a <= b
    ensures k * a <= k * b
  {
  }

  lemma CancelLeft(d: int, a: int, b: int)
    requires d > 0 && d * a <= d * b
    ensures a <= b
  {
  }

  /** Ten units at 1000 plus ten more at 2000 average to 1500, twenty in stock. */
  lemma ImportExample()
    ensures WeightedCost(10, 1000, 10, 2000) == 1500
  {
  }

  // ---------------------------------------------------------------------------
  // Stock effects of a committed order
  // ---------------------------------------------------------------------------

  /** A SALE line lowers the stock of the first product with its id, without a floor. */
  function SellItem(ps: seq<Product>, item: OrderItem): (r: seq<Product>)
    ensures |r| == |ps|
  {
    match ProductIndex(ps, item.productId)
    case None => ps
    case Some(k) => ps[k := ps[k].(stock := ps[k].stock - item.quantity)]
  }

  /** The SALE lines applied one after another, in order. */
  function SellItems(ps: seq<Product>, items: seq<OrderItem>): seq<Product>
    decreases |items|
  {
    if |items| == 0 then ps else SellItem(SellItems(ps, items[..|items| - 1]), items[|items| - 1])
  }

  /** An IMPORT line re-costs the first product with its id and adds to its stock. */
  function ReceiveItem(ps: seq<Product>, item: OrderItem): (r: seq<Product>)
    ensures |r| == |ps|
  {
    match ProductIndex(ps, item.productId)
    case None => ps
    case Some(k) =>
      ps[k := ps[k].(cost := WeightedCost(ps[k].stock, ps[k].cost, item.quantity, item.price),
                     stock := ps[k].stock + item.quantity)]
  }

  function ReceiveItems(ps: seq<Product>, items: seq<OrderItem>): seq<Product>
    decreases |items|
  {
    if |items| == 0 then ps else ReceiveItem(ReceiveItems(ps, items[..|items| - 1]), items[|items| - 1])
  }

  /** Total quantity of the lines for one product. */
  function QuantityFor(items: seq<OrderItem>, id: string): int
    decreases |items|
  {
    if |items| == 0 then 0
    else QuantityFor(items[..|items| - 1], id) + (if items[|items| - 1].productId == id then items[|items| - 1].quantity else 0)
  }

  /** Whether `k` is the first position holding its product id (the one `find` returns). */
  predicate FirstOfItsId(ps: seq<Product>, k: nat)
    requires k < |ps|
  {
    ProductIndex(ps, ps[k].id) == Some(k)
  }

  /** Ids and first positions are unaffected when only stock and cost change. */
  lemma SameIdsSameIndex(ps: seq<Product>, qs: seq<Product>, id: string)
    requires |ps| == |qs|
    requires forall i :: 0 <= i < |ps| ==> qs[i].id == ps[i].id
    ensures ProductIndex(qs, id) == ProductIndex(ps, id)
  {
    var a, b := ProductIndex(ps, id), ProductIndex(qs, id);
    if a.Some? { assert qs[a.value].id == id; }
    if b.Some? { assert ps[b.value].id == id; }
  }

  /** One SALE line seen from one position: only the first product with the line's id changes. */
  lemma SellItemAt(ps: seq<Product>, item: OrderItem, k: nat)
    requires k < |ps|
    ensures SellItem(ps, item)[k] ==
      if ProductIndex(ps, item.productId) == Some(k) then ps[k].(stock := ps[k].stock - item.quantity) else ps[k]
  {
  }

  /**
   * A SALE lowers the first product of each id by the total quantity sold of
   * it; later duplicates and unmatched products are untouched.
   */
  lemma {:induction false} SellItemsEffect(ps: seq<Product>, items: seq<OrderItem>)
    ensures |SellItems(ps, items)| == |ps|
    ensures forall k :: 0 <= k < |ps| ==>
      SellItems(ps, items)[k] ==
        if FirstOfItsId(ps, k) then ps[k].(stock := ps[k].stock - QuantityFor(items, ps[k].id)) else ps[k]
    decreases |items|
  {
    if |items| > 0 {
      var init := items[..|items| - 1];
      var last := items[|items| - 1];
      SellItemsEffect(ps, init);
      var mid := SellItems(ps, init);
      SameIdsSameIndex(ps, mid, last.productId);
      forall k | 0 <= k < |ps|
        ensures SellItems(ps, items)[k] ==
          if FirstOfItsId(ps, k) then ps[k].(stock := ps[k].stock - QuantityFor(items, ps[k].id)) else ps[k]
      {
        SellItemAt(mid, last, k);
        assert ProductIndex(mid, last.productId) == Some(k) <==> FirstOfItsId(ps, k) && ps[k].id == last.productId;
      }
    }
  }

  /** One IMPORT line seen from one position: only the first product with the line's id changes. */
  lemma ReceiveItemAt(ps: seq<Product>, item: OrderItem, k: nat)
    requires k < |ps|
    ensures ReceiveItem(ps, item)[k] ==
      if ProductIndex(ps, item.productId) == Some(k)
      then ps[k].(cost := WeightedCost(ps[k].stock, ps[k].cost, item.quantity, item.price),
                  stock := ps[k].stock + item.quantity)
      else ps[k]
  {
  }

  /** An IMPORT adds the total imported quantity to the first product of each id. */
  lemma {:induction false} ReceiveItemsStock(ps: seq<Product>, items: seq<OrderItem>)
    ensures |ReceiveItems(ps, items)| == |ps|
    ensures forall k :: 0 <= k < |ps| ==> ReceiveItems(ps, items)[k].id == ps[k].id
    ensures forall k :: 0 <= k < |ps| ==>
      ReceiveItems(ps, items)[k] ==
        if FirstOfItsId(ps, k)
        then ps[k].(stock := ps[k].stock + QuantityFor(items, ps[k].id), cost := ReceiveItems(ps, items)[k].cost)
        else ps[k]
    decreases |items|
  {
    if |items| > 0 {
      var init := items[..|items| - 1];
      var last := items[|items| - 1];
      ReceiveItemsStock(ps, init);
      var mid := ReceiveItems(ps, init);
      SameIdsSameIndex(ps, mid, last.productId);
      forall k | 0 <= k < |ps|
        ensures ReceiveItems(ps, items)[k].id == ps[k].id
        ensures ReceiveItems(ps, items)[k] ==
          if FirstOfItsId(ps, k)
          then ps[k].(stock := ps[k].stock + QuantityFor(items, ps[k].id), cost := ReceiveItems(ps, items)[k].cost)
          else ps[k]
      {
        ReceiveItemAt(mid, last, k);
        assert ProductIndex(mid, last.productId) == Some(k) <==> FirstOfItsId(ps, k) && ps[k].id == last.productId;
      }
    }
  }

  /** One IMPORT line on a product: the weighted-average rule, then the stock increase. */
  lemma ReceiveItemEffect(ps: seq<Product>, item: OrderItem, k: nat)
    requires k < |ps| && ps[k].id == item.productId && FirstOfItsId(ps, k)
    ensures ReceiveItem(ps, item)[k].stock == ps[k].stock + item.quantity
    ensures ReceiveItem(ps, item)[k].cost == WeightedCost(ps[k].stock, ps[k].cost, item.quantity, item.price)
    ensures forall j :: 0 <= j < |ps| && j != k ==> ReceiveItem(ps, item)[j] == ps[j]
  {
  }

  // ---------------------------------------------------------------------------
  // Customer posting after a commit
  // ---------------------------------------------------------------------------

  /** `customerCode || 'GUEST'`. */
  function EffectiveCode(code: Option<string>): (r: string)
    ensures r != ""
    ensures code.None? ==> r == GuestCode
  {
    OrElse(code, GuestCode)
  }

  predicate AllDigits(s: string)
  {
    |s| > 0 && forall i :: 0 <= i < |s| ==> '0' <= s[i] <= '9'
  }

  /** The customer created on the first purchase under an unknown code. */
  function NewCustomer(code: string, quickName: string, id: string): Customer
  {
    var name := OrElse(Some(quickName), if code == GuestCode then GuestName else "Khách mới (" + code + ")");
    Customer(id, code, name, if AllDigits(code) then code else "", Retail, 0, 0, None)
  }

  predicate OwesOnOrder(o: Order)
  {
    o.paymentStatus == Debt || o.paymentStatus == Partial
  }

  /** The customer record after an order is posted to it. */
  function Credit(c: Customer, o: Order): Customer
  {
    c.(totalSpent := c.totalSpent + o.totalAmount,
       lastPurchaseDate := Some(o.timestamp),
       debt := if OwesOnOrder(o) then c.debt + o.debtAmount else c.debt)
  }

  /**
   * Find the customer by the order's code (GUEST when it has none) or create
   * one, then add the order's total to its spending, stamp the purchase date,
   * and add the order's debt when the order is not fully paid.
   */
  function PostPurchase(cs: seq<Customer>, o: Order, quickName: string, newId: string): (r: seq<Customer>)
    ensures var code := EffectiveCode(o.customerCode);
      match KeyIndex(cs, CustomerCodeKey, code)
      case Some(i) =>
        && |r| == |cs|
        && (forall j :: 0 <= j < |cs| && j != i ==> r[j] == cs[j])
        && r[i].code == code
        && r[i] == cs[i].(totalSpent := cs[i].totalSpent + o.totalAmount,
                          lastPurchaseDate := Some(o.timestamp),
                          debt := if OwesOnOrder(o) then cs[i].debt + o.debtAmount else cs[i].debt)
      case None =>
        && |r| == |cs| + 1 && r[..|cs|] == cs
        && r[|cs|].id == newId && r[|cs|].code == code && r[|cs|].group == Retail
        && r[|cs|].totalSpent == o.totalAmount
        && r[|cs|].lastPurchaseDate == Some(o.timestamp)
        && r[|cs|].debt == (if OwesOnOrder(o) then o.debtAmount else 0)
        && (quickName != "" ==> r[|cs|].name == quickName)
        && (quickName == "" && code == GuestCode ==> r[|cs|].name == GuestName)
        && (quickName == "" && code != GuestCode ==> r[|cs|].name == "Khách mới (" + code + ")")
        && r[|cs|].phone == (if AllDigits(code) then code else "")
  {
    var code := EffectiveCode(o.customerCode);
    match KeyIndex(cs, CustomerCodeKey, code)
    case Some(i) => cs[i := Credit(cs[i], o)]
    case None =>
      var r := cs + [Credit(NewCustomer(code, quickName, newId), o)];
      assert r[..|cs|] == cs;
      r
  }

  predicate DebtsNonNegative(cs: seq<Customer>)
  {
    forall i :: 0 <= i < |cs| ==> cs[i].debt >= 0
  }

  /** A commit carrying no negative debt keeps every customer's debt non-negative. */
  lemma PostPurchaseKeepsDebtsNonNegative(cs: seq<Customer>, o: Order, quickName: string, newId: string)
    requires DebtsNonNegative(cs) && o.debtAmount >= 0
    ensures DebtsNonNegative(PostPurchase(cs, o, quickName, newId))
  {
    var r := PostPurchase(cs, o, quickName, newId);
    var idx := KeyIndex(cs, CustomerCodeKey, EffectiveCode(o.customerCode));
    forall j | 0 <= j < |r| ensures r[j].debt >= 0 {
      if idx.None? && j < |cs| { assert r[j] == r[..|cs|][j]; }
    }
  }

  /** Σ debtAmount over the orders booked to a customer code. */
  function OutstandingFor(orders: seq<Order>, code: string): int
    decreases |orders|
  {
    if |orders| == 0 then 0
    else
      var o := orders[|orders| - 1];
      OutstandingFor(orders[..|orders| - 1], code) + (if EffectiveCode(o.customerCode) == code then o.debtAmount else 0)
  }

  lemma OutstandingAppend(orders: seq<Order>, o: Order, code: string)
    ensures OutstandingFor(orders + [o], code) ==
      OutstandingFor(orders, code) + (if EffectiveCode(o.customerCode) == code then o.debtAmount else 0)
  {
    assert (orders + [o])[..|orders|] == orders;
  }

  lemma {:induction false} OutstandingUpdate(orders: seq<Order>, i: nat, x: Order, code: string)
    requires i < |orders|
    requires EffectiveCode(x.customerCode) == EffectiveCode(orders[i].customerCode)
    ensures OutstandingFor(orders[i := x], code) ==
      OutstandingFor(orders, code) +
      (if EffectiveCode(x.customerCode) == code then x.debtAmount - orders[i].debtAmount else 0)
    decreases |orders|
  {
    var n := |orders|;
    var u := orders[i := x];
    if i < n - 1 {
      OutstandingUpdate(orders[..n - 1], i, x, code);
      assert u[..n - 1] == orders[..n - 1][i := x];
    } else {
      assert u[..n - 1] == orders[..n - 1];
    }
  }

  /** Each order's own debt is not negative and the ledger lists it. */
  predicate OrderDebtsNonNegative(orders: seq<Order>)
  {
    forall i :: 0 <= i < |orders| ==> orders[i].debtAmount >= 0
  }

  lemma {:induction false} OutstandingCoversOrder(orders: seq<Order>, i: nat, code: string)
    requires i < |orders| && OrderDebtsNonNegative(orders)
    requires EffectiveCode(orders[i].customerCode) == code
    ensures OutstandingFor(orders, code) >= orders[i].debtAmount
    decreases |orders|
  {
    var n := |orders|;
    if i < n - 1 {
      OutstandingCoversOrder(orders[..n - 1], i, code);
    } else {
      OutstandingNonNegative(orders[..n - 1], code);
    }
  }

  lemma {:induction false} OutstandingNonNegative(orders: seq<Order>, code: string)
    requires OrderDebtsNonNegative(orders)
    ensures OutstandingFor(orders, code) >= 0
    decreases |orders|
  {
    if |orders| > 0 { OutstandingNonNegative(orders[..|orders| - 1], code); }
  }

  /**
   * Posting a commit moves the customer's aggregate debt by exactly the change
   * in the outstanding debt of that customer's orders, provided a PAID order
   * carries no debt (as checkout produces it).
   */
  lemma CommitReconciles(cs: seq<Customer>, orders: seq<Order>, o: Order, quickName: string, newId: string)
    requires o.paymentStatus == Paid ==> o.debtAmount == 0
    ensures var code := EffectiveCode(o.customerCode);
      var r := PostPurchase(cs, o, quickName, newId);
      match KeyIndex(cs, CustomerCodeKey, code)
      case Some(i) => r[i].debt - cs[i].debt == OutstandingFor(orders + [o], code) - OutstandingFor(orders, code)
      case None => r[|cs|].debt == OutstandingFor(orders + [o], code) - OutstandingFor(orders, code)
  {
    OutstandingAppend(orders, o, EffectiveCode(o.customerCode));
  }

  // ---------------------------------------------------------------------------
  // Debt settlement
  // ---------------------------------------------------------------------------

  /** A customer's aggregate debt after a payment, floored at zero. */
  function ReduceDebt(c: Customer, amount: int): (r: Customer)
    ensures r.debt >= 0
    ensures r == c.(debt := r.debt)
    ensures 0 <= amount <= c.debt ==> r.debt == c.debt - amount
    ensures amount >= c.debt ==> r.debt == 0
    ensures amount >= 0 ==> r.debt <= Max(0, c.debt)
  {
    c.(debt := Max(0, c.debt - amount))
  }

  /** The note of a settled order; the previous note is kept as a prefix. */
  function PaymentNote(previous: Option<string>, paidText: string, dateText: string): (r: string)
    ensures previous.Some? && previous.value != "" ==> previous.value <= r
    ensures previous.None? || previous.value == "" ==> r == "Trả thêm " + paidText + "₫"
  {
    if previous.Some? && previous.value != ""
    then previous.value + " | Trả thêm " + paidText + "₫ vào " + dateText
    else "Trả thêm " + paidText + "₫"
  }

  /**
   * Settle up to `amount` of one order's debt: what is paid moves from the
   * debt to the amount given, the status follows the remaining debt, and the
   * note grows. `paidText` and `dateText` are the formatted amount and date.
   */
  function SettleOrder(o: Order, amount: int, paidText: string, dateText: string): (r: Order)
    ensures r.debtAmount == o.debtAmount - Min(amount, o.debtAmount)
    ensures r.amountGiven == o.amountGiven + Min(amount, o.debtAmount)
    ensures r.debtAmount + r.amountGiven == o.debtAmount + o.amountGiven
    ensures r.paymentStatus == Paid <==> r.debtAmount <= 0
    ensures r.paymentStatus == Paid || r.paymentStatus == Partial
    ensures o.debtAmount > 0 && amount > 0 ==> 0 <= r.debtAmount < o.debtAmount
    ensures r == o.(debtAmount := r.debtAmount, amountGiven := r.amountGiven,
                    paymentStatus := r.paymentStatus, note := r.note)
    ensures r.note.Some? && (o.note.Some? && o.note.value != "" ==> o.note.value <= r.note.value)
  {
    var p := Min(amount, o.debtAmount);
    var debt := o.debtAmount - p;
    o.(debtAmount := debt,
       amountGiven := o.amountGiven + p,
       paymentStatus := if debt <= 0 then Paid else Partial,
       note := Some(PaymentNote(o.note, paidText, dateText)))
  }

  /** A DEBT_COLLECTION entry: fully paid, no total, no debt, carrying the amount received. */
  predicate IsCollectionEntry(log: Order, amount: int)
  {
    && log.kind == Some(DebtCollection)
    && log.paymentStatus == Paid
    && log.totalAmount == 0 && log.debtAmount == 0 && log.profit == 0 && log.changeDue == 0
    && log.amountGiven == amount
  }

  function CollectionLine(productId: string, caption: string): OrderItem
  {
    OrderItem(productId, caption, 1, 0, false)
  }

  /** The audit order written when a customer pays down the running balance. */
  function DebtPaymentLog(id: string, now: int, c: Customer, amount: int, note: Option<string>): (r: Order)
    ensures IsCollectionEntry(r, amount) && r.customerCode == Some(c.code) && r.id == id && r.timestamp == now
  {
    Order(id, now, Some(DebtCollection), [CollectionLine("DEBT_PAY", "THANH TOÁN NỢ")],
          0, 0, Some(c.code), Paid, amount, 0, 0,
          Some(OrElse(note, "Thu nợ khách hàng " + c.name)),
          None, None, None, None, None, None)
  }

  /** The last six characters of an id (all of it when shorter), upper-cased. */
  function ShortRef(id: string): (r: string)
    ensures |r| == Min(6, |id|)
    ensures forall k :: 0 <= k < |r| ==> r[k] == UpperChar(id[|id| - |r| + k])
  {
    ToUpper(if |id| <= 6 then id else id[|id| - 6..])
  }

  /** The audit order written when one order's debt is settled. */
  function SettlementLog(id: string, now: int, settled: Order, paid: int, note: Option<string>): (r: Order)
    ensures IsCollectionEntry(r, paid) && r.customerCode == settled.customerCode && r.id == id && r.timestamp == now
  {
    Order(id, now, Some(DebtCollection), [CollectionLine("ORDER_DEBT", "TRẢ NỢ ĐƠN #" + ShortRef(settled.id))],
          0, 0, settled.customerCode, Paid, paid, 0, 0,
          Some(OrElse(note, "Thanh toán nợ cho đơn hàng #" + settled.id)),
          None, None, None, None, None, None)
  }

  /** The customer code a settlement is posted to: present and not GUEST. */
  predicate RegisteredCode(code: Option<string>)
  {
    code.Some? && code.value != "" && code.value != GuestCode
  }

  /** The customers after one order's settlement of `paid`. */
  function SettleCustomers(cs: seq<Customer>, settled: Order, paid: int): (r: seq<Customer>)
    ensures |r| == |cs|
    ensures !RegisteredCode(settled.customerCode) ==> r == cs
    ensures forall j :: 0 <= j < |cs| && (!RegisteredCode(settled.customerCode) || cs[j].code != settled.customerCode.value) ==> r[j] == cs[j]
    ensures forall j :: 0 <= j < |cs| ==> r[j].debt >= 0 || r[j] == cs[j]
    ensures forall k :: 0 <= k < |cs| && RegisteredCode(settled.customerCode) &&
                        KeyIndex(cs, CustomerCodeKey, settled.customerCode.value) == Some(k) ==>
      r == cs[k := cs[k].(debt := Max(0, cs[k].debt - paid))]
    ensures RegisteredCode(settled.customerCode) && KeyIndex(cs, CustomerCodeKey, settled.customerCode.value).None? ==>
      r == cs
  {
    if !RegisteredCode(settled.customerCode) then cs
    else
      match KeyIndex(cs, CustomerCodeKey, settled.customerCode.value)
      case None => cs
      case Some(k) => cs[k := ReduceDebt(cs[k], paid)]
  }

  /** Why `payOrderDebt` refuses an order id, if it does. */
  function SettlementError(orders: seq<Order>, orderId: string): (e: Option<LedgerError>)
    ensures e == Some(OrderNotFound) <==> forall i :: 0 <= i < |orders| ==> orders[i].id != orderId
    ensures e == Some(NothingOwed) <==>
      KeyIndex(orders, OrderKey, orderId).Some? && orders[KeyIndex(orders, OrderKey, orderId).value].debtAmount <= 0
    ensures e.None? ==> KeyIndex(orders, OrderKey, orderId).Some? &&
                        orders[KeyIndex(orders, OrderKey, orderId).value].debtAmount > 0
  {
    match KeyIndex(orders, OrderKey, orderId)
    case None => Some(OrderNotFound)
    case Some(i) => if orders[i].debtAmount <= 0 then Some(NothingOwed) else None
  }

  /**
   * Settling an order of a registered customer keeps the two views of debt
   * reconciled: if the customer the settlement is posted to owed exactly the
   * outstanding debt of their orders, they still do after the order is
   * settled and the audit entry is appended.
   */
  lemma SettlementReconciles(cs: seq<Customer>, orders: seq<Order>, i: nat, amount: int,
                             paidText: string, dateText: string, log: Order)
    requires i < |orders| && OrderDebtsNonNegative(orders)
    requires orders[i].debtAmount > 0 && amount > 0
    requires RegisteredCode(orders[i].customerCode)
    requires KeyIndex(cs, CustomerCodeKey, orders[i].customerCode.value).Some?
    requires var k := KeyIndex(cs, CustomerCodeKey, orders[i].customerCode.value).value;
      cs[k].debt == OutstandingFor(orders, cs[k].code)
    requires log.debtAmount == 0
    ensures var k := KeyIndex(cs, CustomerCodeKey, orders[i].customerCode.value).value;
      var settled := SettleOrder(orders[i], amount, paidText, dateText);
      SettleCustomers(cs, settled, Min(amount, orders[i].debtAmount))[k].debt ==
      OutstandingFor(orders[i := settled] + [log], cs[k].code)
  {
    var k := KeyIndex(cs, CustomerCodeKey, orders[i].customerCode.value).value;
    var code := cs[k].code;
    assert EffectiveCode(orders[i].customerCode) == code;
    var settled := SettleOrder(orders[i], amount, paidText, dateText);
    assert settled.customerCode == orders[i].customerCode;
    OutstandingUpdate(orders, i, settled, code);
    OutstandingAppend(orders[i := settled], log, code);
    OutstandingCoversOrder(orders, i, code);
  }

  /**
   * An order without a registered code (none, empty or GUEST) is charged to
   * the GUEST record when committed, but settling it reduces no balance:
   * the outstanding debt under its code falls by the amount paid while
   * every customer record stays as it was.
   */
  lemma UnregisteredSettlementDiverges(cs: seq<Customer>, orders: seq<Order>, i: nat, amount: int,
                                       paidText: string, dateText: string, log: Order)
    requires i < |orders| && OrderDebtsNonNegative(orders)
    requires orders[i].debtAmount > 0 && amount > 0
    requires !RegisteredCode(orders[i].customerCode)
    requires log.debtAmount == 0
    ensures var settled := SettleOrder(orders[i], amount, paidText, dateText);
      var paid := Min(amount, orders[i].debtAmount);
      var code := EffectiveCode(orders[i].customerCode);
      && paid > 0
      && SettleCustomers(cs, settled, paid) == cs
      && OutstandingFor(orders[i := settled] + [log], code) == OutstandingFor(orders, code) - paid
  {
    var code := EffectiveCode(orders[i].customerCode);
    var settled := SettleOrder(orders[i], amount, paidText, dateText);
    OutstandingUpdate(orders, i, settled, code);
    OutstandingAppend(orders[i := settled], log, code);
  }

  /** The worked example: 3000 paid on an order owing 5000 by a customer owing 5000. */
  lemma SettlementExample(o: Order, c: Customer)
    requires o.debtAmount == 5000 && c.debt == 5000
    ensures SettleOrder(o, 3000, "3.000", "").debtAmount == 2000
    ensures SettleOrder(o, 3000, "3.000", "").paymentStatus == Partial
    ensures ReduceDebt(c, Min(3000, o.debtAmount)).debt == 2000
  {
  }
}
