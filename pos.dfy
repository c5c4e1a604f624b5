/**
 * The checkout screen: the cart as a sequence of order lines, the
 * transitions that rebuild it, the money it derives, and the order it
 * hands to the ledger on confirmation.
 */
module Pos {
  import opened Types
  import opened Ledger

  datatype PaymentMode = PayNow | PayDebt
  datatype CheckoutError = Busy | InsufficientPayment | MissingCustomer

  /** The largest quantity a photo-service line may take. */
  const ServiceQuantityCap: int := 999999

  /** `products.find(p => p.id === id)`. */
  function FindProduct(ps: seq<Product>, id: string): (r: Option<Product>)
    ensures r.Some? <==> exists k :: 0 <= k < |ps| && ps[k].id == id
    ensures r.Some? ==> r.value.id == id && r.value in ps
  {
    match ProductIndex(ps, id)
    case None => None
    case Some(k) => Some(ps[k])
  }

  /** The price a customer group pays: wholesale falls back to retail when unset or zero. */
  function GroupPrice(p: Product, wholesale: bool): int
  {
    if wholesale then NonZeroOr(p.wholesalePrice, p.price) else p.price
  }

  function ItemKey(item: OrderItem): string { item.productId }

  /** No two lines of the cart are for the same product. */
  predicate DistinctLines(cart: seq<OrderItem>)
  {
    DistinctKeys(cart, ItemKey)
  }

  // ---------------------------------------------------------------------------
  // Cart transitions
  // ---------------------------------------------------------------------------

  function RepriceLine(item: OrderItem, ps: seq<Product>, wholesale: bool): OrderItem
  {
    if item.isCustomPrice then item
    else
      match FindProduct(ps, item.productId)
      case None => item
      case Some(p) => item.(price := GroupPrice(p, wholesale))
  }

  /**
   * The repricing run when the customer or the catalogue changes: a line
   * with a hand-edited price, or for a product no longer known, is kept;
   * every other line takes its product's price for the customer's group.
   */
  function Reprice(cart: seq<OrderItem>, ps: seq<Product>, wholesale: bool): (r: seq<OrderItem>)
    ensures |r| == |cart|
    ensures forall i :: 0 <= i < |cart| ==> r[i] == cart[i].(price := r[i].price)
    ensures forall i :: 0 <= i < |cart| && (cart[i].isCustomPrice || FindProduct(ps, cart[i].productId).None?) ==>
      r[i] == cart[i]
    ensures forall i :: 0 <= i < |cart| && !cart[i].isCustomPrice && FindProduct(ps, cart[i].productId).Some? ==>
      r[i].price == GroupPrice(FindProduct(ps, cart[i].productId).value, wholesale)
  {
    seq(|cart|, i requires 0 <= i < |cart| => RepriceLine(cart[i], ps, wholesale))
  }

  /** Repricing twice for the same group is repricing once. */
  lemma RepriceIdempotent(cart: seq<OrderItem>, ps: seq<Product>, wholesale: bool)
    ensures Reprice(Reprice(cart, ps, wholesale), ps, wholesale) == Reprice(cart, ps, wholesale)
  {
  }

  /**
   * `addToCart`: refused while a payment is in flight or for a non-service
   * product with no stock. A product already in the cart gets one more unit
   * (unless a non-service line has reached the stock) and, unless its price
   * was edited, the group price; a new product is appended with one unit.
   */
  function AddToCart(cart: seq<OrderItem>, p: Product, wholesale: bool, processing: bool): (r: seq<OrderItem>)
    ensures processing || (p.category != PhotoService && p.stock <= 0) ==> r == cart
    ensures |r| == |cart| + 1 <==>
      !processing && (p.category == PhotoService || p.stock > 0) &&
      forall i :: 0 <= i < |cart| ==> cart[i].productId != p.id
    ensures |r| == |cart| || |r| == |cart| + 1
    ensures |r| == |cart| + 1 ==>
      r[..|cart|] == cart && r[|cart|] == OrderItem(p.id, p.name, 1, GroupPrice(p, wholesale), false)
    ensures forall i :: 0 <= i < |cart| && cart[i].productId != p.id ==> r[i] == cart[i]
    ensures forall i :: 0 <= i < |cart| ==>
      r[i] == cart[i] || (r[i].productId == p.id && r[i].quantity == cart[i].quantity + 1)
    ensures !processing && (p.category == PhotoService || p.stock > 0) && KeyIndex(cart, ItemKey, p.id).Some? ==>
      var k := KeyIndex(cart, ItemKey, p.id).value;
      && (p.category != PhotoService && cart[k].quantity >= p.stock ==> r == cart)
      && (p.category == PhotoService || cart[k].quantity < p.stock ==>
            |r| == |cart| &&
            forall i :: 0 <= i < |cart| && cart[i].productId == p.id ==>
              r[i] == cart[i].(quantity := cart[i].quantity + 1,
                               price := if cart[i].isCustomPrice then cart[i].price else GroupPrice(p, wholesale)))
  {
    if processing || (p.category != PhotoService && p.stock <= 0) then cart
    else
      match KeyIndex(cart, ItemKey, p.id)
      case Some(k) =>
        if p.category != PhotoService && cart[k].quantity >= p.stock then cart
        else
          seq(|cart|, i requires 0 <= i < |cart| =>
            if cart[i].productId == p.id
            then cart[i].(quantity := cart[i].quantity + 1,
                          price := if cart[i].isCustomPrice then cart[i].price else GroupPrice(p, wholesale))
            else cart[i])
      case None =>
        var r := cart + [OrderItem(p.id, p.name, 1, GroupPrice(p, wholesale), false)];
        assert r[..|cart|] == cart;
        r
  }

  /** Adding to a cart of distinct lines keeps the lines distinct. */
  lemma AddKeepsLinesDistinct(cart: seq<OrderItem>, p: Product, wholesale: bool, processing: bool)
    requires DistinctLines(cart)
    ensures DistinctLines(AddToCart(cart, p, wholesale, processing))
  {
    var r := AddToCart(cart, p, wholesale, processing);
    forall i, j | 0 <= i < j < |r| ensures r[i].productId != r[j].productId {
      if j < |cart| {
        assert r[i].productId == cart[i].productId && r[j].productId == cart[j].productId;
      } else {
        assert r[..|cart|] == cart;
        assert r[i] == cart[i];
      }
    }
  }

  /**
   * Adding never takes a non-service line past the product's stock: if the
   * product's line was within stock before, it is within stock after.
   */
  lemma AddRespectsStock(cart: seq<OrderItem>, p: Product, wholesale: bool, processing: bool, k: nat)
    requires DistinctLines(cart) && p.category != PhotoService
    requires k < |cart| && cart[k].productId == p.id && cart[k].quantity <= p.stock
    ensures AddToCart(cart, p, wholesale, processing)[k].quantity <= p.stock
  {
    assert KeyIndex(cart, ItemKey, p.id) == Some(k);
  }

  /** The lines not for product `id`. */
  function OtherProduct(id: string): OrderItem -> bool
  {
    (item: OrderItem) => item.productId != id
  }

  /** `removeFromCart`: every line for the product goes, the rest keep their order. */
  function RemoveFromCart(cart: seq<OrderItem>, id: string, processing: bool): (r: seq<OrderItem>)
    ensures processing ==> r == cart
    ensures !processing ==> forall x :: x in r <==> x in cart && x.productId != id
    ensures |r| <= |cart|
  {
    if processing then cart else Filter(cart, OtherProduct(id))
  }

  /** Removal works line by line: it distributes over any split of the cart. */
  lemma RemoveDistributes(a: seq<OrderItem>, b: seq<OrderItem>, id: string)
    ensures RemoveFromCart(a + b, id, false) == RemoveFromCart(a, id, false) + RemoveFromCart(b, id, false)
  {
    FilterAppend(a, b, OtherProduct(id));
  }

  /** The cap on a line's quantity: effectively none for services, else the stock. */
  function MaxQuantity(ps: seq<Product>, id: string): int
  {
    match FindProduct(ps, id)
    case None => 0
    case Some(p) => if p.category == PhotoService then ServiceQuantityCap else p.stock
  }

  /**
   * `updateQuantity`: the product's lines move by `delta`, capped by
   * `MaxQuantity` and never below one; other lines are untouched.
   */
  function UpdateQuantity(cart: seq<OrderItem>, ps: seq<Product>, id: string, delta: int, processing: bool)
    : (r: seq<OrderItem>)
    ensures processing ==> r == cart
    ensures |r| == |cart|
    ensures forall i :: 0 <= i < |cart| && cart[i].productId != id ==> r[i] == cart[i]
    ensures !processing ==> forall i :: 0 <= i < |cart| && cart[i].productId == id ==>
      && r[i] == cart[i].(quantity := r[i].quantity)
      && 1 <= r[i].quantity <= Max(1, MaxQuantity(ps, id))
      && r[i].quantity <= Max(1, cart[i].quantity + delta)
      && (1 <= cart[i].quantity + delta <= MaxQuantity(ps, id) ==> r[i].quantity == cart[i].quantity + delta)
      && (cart[i].quantity + delta > MaxQuantity(ps, id) ==> r[i].quantity == Max(1, MaxQuantity(ps, id)))
  {
    if processing then cart
    else
      var cap := MaxQuantity(ps, id);
      seq(|cart|, i requires 0 <= i < |cart| =>
        if cart[i].productId == id
        then cart[i].(quantity := Max(1, Min(cart[i].quantity + delta, cap)))
        else cart[i])
  }

  predicate PositiveQuantities(cart: seq<OrderItem>)
  {
    forall i :: 0 <= i < |cart| ==> cart[i].quantity >= 1
  }

  /** Every cart transition keeps each line's quantity at one or more. */
  lemma TransitionsKeepQuantitiesPositive(cart: seq<OrderItem>, ps: seq<Product>, p: Product, id: string,
                                          delta: int, wholesale: bool, processing: bool)
    requires PositiveQuantities(cart)
    ensures PositiveQuantities(AddToCart(cart, p, wholesale, processing))
    ensures PositiveQuantities(RemoveFromCart(cart, id, processing))
    ensures PositiveQuantities(UpdateQuantity(cart, ps, id, delta, processing))
    ensures PositiveQuantities(Reprice(cart, ps, wholesale))
  {
    RemovePreservesPositive(cart, id, processing);
    AddPreservesPositive(cart, p, wholesale, processing);
  }

  lemma RemovePreservesPositive(cart: seq<OrderItem>, id: string, processing: bool)
    requires PositiveQuantities(cart)
    ensures PositiveQuantities(RemoveFromCart(cart, id, processing))
  {
    var r := RemoveFromCart(cart, id, processing);
    forall i | 0 <= i < |r| ensures r[i].quantity >= 1 {
      assert r[i] in cart;
    }
  }

  lemma AddPreservesPositive(cart: seq<OrderItem>, p: Product, wholesale: bool, processing: bool)
    requires PositiveQuantities(cart)
    ensures PositiveQuantities(AddToCart(cart, p, wholesale, processing))
  {
    var a := AddToCart(cart, p, wholesale, processing);
    forall i | 0 <= i < |a| ensures a[i].quantity >= 1 {
      if i < |cart| {
        assert a[i] == cart[i] || a[i].quantity == cart[i].quantity + 1;
      }
    }
  }

  /** The price a line reverts to: its product's group price, or its own when the product is unknown. */
  function DefaultPrice(item: OrderItem, ps: seq<Product>, wholesale: bool): int
  {
    match FindProduct(ps, item.productId)
    case None => item.price
    case Some(p) => GroupPrice(p, wholesale)
  }

  /**
   * `handleSaveEdit`: the edited line takes the new quantity and price and is
   * flagged as hand-priced exactly when the price differs from its default.
   */
  function SaveEdit(cart: seq<OrderItem>, ps: seq<Product>, wholesale: bool, index: nat, quantity: int, price: int)
    : (r: seq<OrderItem>)
    requires index < |cart|
    ensures |r| == |cart|
    ensures forall j :: 0 <= j < |cart| && j != index ==> r[j] == cart[j]
    ensures r[index].productId == cart[index].productId && r[index].productName == cart[index].productName
    ensures r[index].quantity == quantity && r[index].price == price
    ensures r[index].isCustomPrice <==> price != DefaultPrice(cart[index], ps, wholesale)
  {
    var item := cart[index];
    cart[index := item.(quantity := quantity, price := price,
                        isCustomPrice := price != DefaultPrice(item, ps, wholesale))]
  }

  /** An edited price survives the next repricing for the same group. */
  lemma EditSurvivesReprice(cart: seq<OrderItem>, ps: seq<Product>, wholesale: bool, index: nat, quantity: int, price: int)
    requires index < |cart|
    ensures Reprice(SaveEdit(cart, ps, wholesale, index, quantity, price), ps, wholesale)[index].price == price
  {
  }

  // ---------------------------------------------------------------------------
  // Money
  // ---------------------------------------------------------------------------

  /** Σ price × quantity over the cart. */
  function TotalAmount(cart: seq<OrderItem>): (r: int)
    ensures (forall i :: 0 <= i < |cart| ==> cart[i].price >= 0 && cart[i].quantity >= 0) ==> r >= 0
    decreases |cart|
  {
    if |cart| == 0 then 0
    else TotalAmount(cart[..|cart| - 1]) + cart[|cart| - 1].price * cart[|cart| - 1].quantity
  }

  /** Σ (price − cost) × quantity over the lines whose product is known. */
  function EstimatedProfit(cart: seq<OrderItem>, ps: seq<Product>): (r: int)
    ensures |ps| == 0 ==> r == 0
    decreases |cart|
  {
    if |cart| == 0 then 0
    else
      var item := cart[|cart| - 1];
      EstimatedProfit(cart[..|cart| - 1], ps) +
        match FindProduct(ps, item.productId)
        case None => 0
        case Some(p) => (item.price - p.cost) * item.quantity
  }

  /** Σ cost × quantity over the lines whose product is known. */
  function CostOfGoods(cart: seq<OrderItem>, ps: seq<Product>): int
    decreases |cart|
  {
    if |cart| == 0 then 0
    else
      var item := cart[|cart| - 1];
      CostOfGoods(cart[..|cart| - 1], ps) +
        match FindProduct(ps, item.productId)
        case None => 0
        case Some(p) => p.cost * item.quantity
  }

  /** When every line's product is known, the estimated profit is the total less the cost of goods. */
  lemma {:induction false} ProfitIsTotalLessCost(cart: seq<OrderItem>, ps: seq<Product>)
    requires forall i :: 0 <= i < |cart| ==> FindProduct(ps, cart[i].productId).Some?
    ensures EstimatedProfit(cart, ps) == TotalAmount(cart) - CostOfGoods(cart, ps)
    decreases |cart|
  {
    if |cart| > 0 {
      var init := cart[..|cart| - 1];
      assert forall i :: 0 <= i < |init| ==> init[i] == cart[i];
      ProfitIsTotalLessCost(init, ps);
      LineProfit(cart, ps);
    }
  }

  /** The last line, with a known product, adds its price less its cost to the profit. */
  lemma LineProfit(cart: seq<OrderItem>, ps: seq<Product>)
    requires |cart| > 0 && FindProduct(ps, cart[|cart| - 1].productId).Some?
    ensures var init := cart[..|cart| - 1];
      EstimatedProfit(cart, ps) - EstimatedProfit(init, ps) ==
        (TotalAmount(cart) - TotalAmount(init)) - (CostOfGoods(cart, ps) - CostOfGoods(init, ps))
  {
    var item := cart[|cart| - 1];
    var p := FindProduct(ps, item.productId).value;
    assert (item.price - p.cost) * item.quantity == item.price * item.quantity - p.cost * item.quantity;
  }

  /** Totals add up over any split of the cart. */
  lemma {:induction false} TotalAppend(a: seq<OrderItem>, b: seq<OrderItem>)
    ensures TotalAmount(a + b) == TotalAmount(a) + TotalAmount(b)
    decreases |b|
  {
    if |b| == 0 {
      assert a + b == a;
    } else {
      var b' := b[..|b| - 1];
      assert (a + b)[..|a + b| - 1] == a + b';
      TotalAppend(a, b');
    }
  }

  /** The change handed back: what was given beyond the total, when paying now. */
  function ChangeDue(mode: PaymentMode, given: int, total: int): (r: int)
    ensures mode == PayDebt ==> r == 0
    ensures mode == PayNow ==> given == total + r
  {
    if mode == PayNow then given - total else 0
  }

  /** What is left owing: the shortfall, floored at zero, when paying on credit. */
  function DebtAmount(mode: PaymentMode, given: int, total: int): (r: int)
    ensures r >= 0
    ensures mode == PayNow ==> r == 0
    ensures mode == PayDebt ==> given + r >= total
    ensures mode == PayDebt && given <= total ==> given + r == total
    ensures mode == PayDebt && given >= total ==> r == 0
  {
    if mode == PayDebt then Max(0, total - given) else 0
  }

  /** PAID when paying now; on credit PARTIAL if anything was given, else DEBT. */
  function StatusFor(mode: PaymentMode, given: int): (r: PaymentStatus)
    ensures r.Paid? <==> mode.PayNow?
    ensures r.Partial? <==> mode.PayDebt? && given > 0
    ensures r.Debt? <==> mode.PayDebt? && given <= 0
  {
    if mode == PayDebt then (if given > 0 then Partial else Debt) else Paid
  }

  /**
   * `handleConfirmPayment`: refuse while busy, a short cash payment, or a
   * credit sale with neither a typed code nor a recognised customer; else
   * build the order that goes to the ledger. The code is the recognised
   * customer's, else the typed one, else GUEST.
   */
  function ConfirmPayment(processing: bool, mode: PaymentMode, given: int, cart: seq<OrderItem>, ps: seq<Product>,
                          codeInput: string, found: Option<Customer>, note: string, id: string, now: int)
    : (r: Result<Order, CheckoutError>)
    ensures r == Err(Busy) <==> processing
    ensures r == Err(InsufficientPayment) <==> !processing && mode == PayNow && given < TotalAmount(cart)
    ensures r == Err(MissingCustomer) <==>
      !processing && mode == PayDebt && codeInput == "" && found.None?
    ensures r.Ok? ==>
      && r.value.id == id && r.value.timestamp == now && r.value.kind.None?
      && r.value.items == cart
      && r.value.totalAmount == TotalAmount(cart)
      && r.value.profit == EstimatedProfit(cart, ps)
      && r.value.amountGiven == given
      && r.value.paymentStatus == StatusFor(mode, given)
      && r.value.changeDue == ChangeDue(mode, given, TotalAmount(cart))
      && r.value.debtAmount == DebtAmount(mode, given, TotalAmount(cart))
      && r.value.note == Some(note)
      && r.value.customerCode.Some?
      && (found.Some? ==> r.value.customerCode.value == found.value.code)
      && (found.None? ==> r.value.customerCode.value == OrElse(Some(codeInput), GuestCode))
  {
    var total := TotalAmount(cart);
    if processing then Err(Busy)
    else if mode == PayNow && given < total then Err(InsufficientPayment)
    else if mode == PayDebt && codeInput == "" && found.None? then Err(MissingCustomer)
    else
      var code := if found.Some? then found.value.code else OrElse(Some(codeInput), GuestCode);
      Ok(Order(id, now, None, cart, total, EstimatedProfit(cart, ps), Some(code),
               StatusFor(mode, given), given, ChangeDue(mode, given, total),
               DebtAmount(mode, given, total), Some(note),
               None, None, None, None, None, None))
  }

  /**
   * A confirmed order accounts for its total: cash kept plus debt recorded
   * covers it, exactly so unless a credit sale was overpaid; its status is
   * PAID exactly for cash sales, and only credit sales carry debt.
   */
  lemma ConfirmedOrderBalances(processing: bool, mode: PaymentMode, given: int, cart: seq<OrderItem>, ps: seq<Product>,
                               codeInput: string, found: Option<Customer>, note: string, id: string, now: int)
    requires ConfirmPayment(processing, mode, given, cart, ps, codeInput, found, note, id, now).Ok?
    ensures var o := ConfirmPayment(processing, mode, given, cart, ps, codeInput, found, note, id, now).value;
      && o.amountGiven - o.changeDue + o.debtAmount >= o.totalAmount
      && (mode == PayNow || given <= o.totalAmount ==> o.amountGiven - o.changeDue + o.debtAmount == o.totalAmount)
      && (o.paymentStatus == Paid <==> mode == PayNow)
      && (o.paymentStatus == Partial <==> mode == PayDebt && given > 0)
      && (o.paymentStatus == Debt <==> mode == PayDebt && given <= 0)
      && (OwesOnOrder(o) <==> mode == PayDebt)
      && (mode == PayNow ==> o.changeDue == given - o.totalAmount)
      && (mode == PayDebt ==> o.changeDue == 0 && o.debtAmount == Max(0, o.totalAmount - given))
      && (mode == PayNow ==> o.changeDue >= 0 && o.debtAmount == 0)
      && o.debtAmount >= 0
  {
  }

  /**
   * A credit sale paid in full is still recorded as PARTIAL, with nothing
   * owed: the status looks only at whether anything was given.
   */
  lemma OverpaidCreditSaleIsPartial(cart: seq<OrderItem>, ps: seq<Product>, given: int,
                                    codeInput: string, found: Option<Customer>, note: string, id: string, now: int)
    requires given > 0 && given >= TotalAmount(cart) && (codeInput != "" || found.Some?)
    ensures var r := ConfirmPayment(false, PayDebt, given, cart, ps, codeInput, found, note, id, now);
      r.Ok? && r.value.paymentStatus == Partial && r.value.debtAmount == 0
  {
  }

  /** One unit at 10000 and three at 5000, paid 25000 in cash: PAID, nothing owed, no change. */
  lemma CheckoutExample(ps: seq<Product>, found: Option<Customer>)
    ensures var cart := [OrderItem("a", "A", 1, 10000, false), OrderItem("b", "B", 3, 5000, false)];
      var r := ConfirmPayment(false, PayNow, 25000, cart, ps, "", found, "", "o1", 0);
      && TotalAmount(cart) == 25000
      && r.Ok? && r.value.paymentStatus == Paid && r.value.debtAmount == 0 && r.value.changeDue == 0
  {
    var cart := [OrderItem("a", "A", 1, 10000, false), OrderItem("b", "B", 3, 5000, false)];
    assert cart[..1][..0] == [];
    assert TotalAmount(cart[..1]) == 10000;
    assert TotalAmount(cart) == 25000;
  }
}
