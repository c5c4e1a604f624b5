/**
 * The inventory screen: the product form's record rules, the import cart
 * and the IMPORT order it produces, the cleanup count, and the stock
 * valuations.
 */
module Inventory {
  import opened Types
  import opened Ledger
  import opened Pos

  /** The stock a photo service is saved with, so it never runs out. */
  const ServiceStock: int := 1000000000

  /** The product form; an empty string or a zero stands for a field left blank. */
  datatype ProductForm = ProductForm(
    code: string,
    name: string,
    category: ProductCategory,
    price: int,
    wholesalePrice: int,
    cost: int,
    stock: int)

  /**
   * `handleSave`: a form without a name or a price is refused. Otherwise the
   * record keeps the edited product's id (else `newId`), the typed code (else
   * `generatedCode`), a wholesale price that falls back to the retail price,
   * and, for a service, the service stock.
   */
  function ProductRecord(form: ProductForm, editing: Option<Product>, newId: string, generatedCode: string)
    : (r: Option<Product>)
    ensures r.None? <==> form.name == "" || form.price == 0
    ensures r.Some? ==>
      && r.value.id == (if editing.Some? then editing.value.id else newId)
      && r.value.code == (if form.code != "" then form.code else generatedCode)
      && r.value.name == form.name && r.value.category == form.category
      && r.value.price == form.price && r.value.cost == form.cost
      && r.value.wholesalePrice.Some? && r.value.wholesalePrice.value != 0
      && (form.wholesalePrice != 0 ==> r.value.wholesalePrice.value == form.wholesalePrice)
      && (form.wholesalePrice == 0 ==> r.value.wholesalePrice.value == form.price)
      && (form.category == PhotoService ==> r.value.stock == ServiceStock)
      && (form.category != PhotoService ==> r.value.stock == form.stock)
  {
    if form.name == "" || form.price == 0 then None
    else
      Some(Product(
        if editing.Some? then editing.value.id else newId,
        if form.code != "" then form.code else generatedCode,
        form.name,
        form.category,
        form.price,
        Some(if form.wholesalePrice != 0 then form.wholesalePrice else form.price),
        form.cost,
        if form.category == PhotoService then ServiceStock else form.stock))
  }

  /**
   * A saved record is priced for both groups without fallback, and a saved
   * service is never out of stock, so the cleanup never removes it.
   */
  lemma SavedRecordConsistent(form: ProductForm, editing: Option<Product>, newId: string, generatedCode: string)
    requires ProductRecord(form, editing, newId, generatedCode).Some?
    ensures var p := ProductRecord(form, editing, newId, generatedCode).value;
      && GroupPrice(p, true) == p.wholesalePrice.value
      && GroupPrice(p, false) == form.price
      && (form.category == PhotoService ==> !OutOfStock(p))
      && (form.category != PhotoService ==> (OutOfStock(p) <==> form.stock <= 0))
  {
  }

  // ---------------------------------------------------------------------------
  // Import cart
  // ---------------------------------------------------------------------------

  /** `handleAddToImportCart`: one more unit of a product already listed, else a line of one at its cost. */
  function AddToImportCart(cart: seq<OrderItem>, p: Product): (r: seq<OrderItem>)
    ensures |r| == |cart| + 1 <==> forall i :: 0 <= i < |cart| ==> cart[i].productId != p.id
    ensures |r| == |cart| || |r| == |cart| + 1
    ensures |r| == |cart| + 1 ==> r[..|cart|] == cart && r[|cart|] == OrderItem(p.id, p.name, 1, p.cost, false)
    ensures forall i :: 0 <= i < |cart| ==>
      r[i] == (if cart[i].productId == p.id then cart[i].(quantity := cart[i].quantity + 1) else cart[i])
  {
    match KeyIndex(cart, ItemKey, p.id)
    case Some(_) =>
      seq(|cart|, i requires 0 <= i < |cart| =>
        if cart[i].productId == p.id then cart[i].(quantity := cart[i].quantity + 1) else cart[i])
    case None =>
      var r := cart + [OrderItem(p.id, p.name, 1, p.cost, false)];
      assert r[..|cart|] == cart;
      r
  }

  /** `handleRemoveFromImportCart`: every line for the product goes, the rest keep their order. */
  function RemoveFromImportCart(cart: seq<OrderItem>, id: string): (r: seq<OrderItem>)
    ensures forall x :: x in r <==> x in cart && x.productId != id
    ensures |r| <= |cart|
  {
    Filter(cart, OtherProduct(id))
  }

  /** `handleUpdateImportQuantity`: the product's lines move by `delta`, never below one. */
  function UpdateImportQuantity(cart: seq<OrderItem>, id: string, delta: int): (r: seq<OrderItem>)
    ensures |r| == |cart|
    ensures forall i :: 0 <= i < |cart| && cart[i].productId != id ==> r[i] == cart[i]
    ensures forall i :: 0 <= i < |cart| && cart[i].productId == id ==>
      && r[i] == cart[i].(quantity := r[i].quantity)
      && r[i].quantity >= 1
      && (cart[i].quantity + delta >= 1 ==> r[i].quantity == cart[i].quantity + delta)
      && (cart[i].quantity + delta < 1 ==> r[i].quantity == 1)
  {
    seq(|cart|, i requires 0 <= i < |cart| =>
      if cart[i].productId == id then cart[i].(quantity := Max(1, cart[i].quantity + delta)) else cart[i])
  }

  /** `handleUpdateImportPrice`: the product's lines take the new unit price; nothing else changes. */
  function UpdateImportPrice(cart: seq<OrderItem>, id: string, price: int): (r: seq<OrderItem>)
    ensures |r| == |cart|
    ensures forall i :: 0 <= i < |cart| && cart[i].productId != id ==> r[i] == cart[i]
    ensures forall i :: 0 <= i < |cart| && cart[i].productId == id ==> r[i] == cart[i].(price := price)
  {
    seq(|cart|, i requires 0 <= i < |cart| =>
      if cart[i].productId == id then cart[i].(price := price) else cart[i])
  }

  /** Every import-cart transition keeps each line's quantity at one or more. */
  lemma ImportCartKeepsQuantitiesPositive(cart: seq<OrderItem>, p: Product, id: string, delta: int, price: int)
    requires PositiveQuantities(cart)
    ensures PositiveQuantities(AddToImportCart(cart, p))
    ensures PositiveQuantities(RemoveFromImportCart(cart, id))
    ensures PositiveQuantities(UpdateImportQuantity(cart, id, delta))
    ensures PositiveQuantities(UpdateImportPrice(cart, id, price))
  {
    ImportRemovePreservesPositive(cart, id);
    ImportAddPreservesPositive(cart, p);
  }

  lemma ImportRemovePreservesPositive(cart: seq<OrderItem>, id: string)
    requires PositiveQuantities(cart)
    ensures PositiveQuantities(RemoveFromImportCart(cart, id))
  {
    var r := RemoveFromImportCart(cart, id);
    forall i | 0 <= i < |r| ensures r[i].quantity >= 1 {
      assert r[i] in cart;
    }
  }

  lemma ImportAddPreservesPositive(cart: seq<OrderItem>, p: Product)
    requires PositiveQuantities(cart)
    ensures PositiveQuantities(AddToImportCart(cart, p))
  {
    var r := AddToImportCart(cart, p);
    forall i | 0 <= i < |r| ensures r[i].quantity >= 1 {
      if i < |cart| {
        assert r[i].quantity >= cart[i].quantity;
      }
    }
  }

  /**
   * Why positive quantities matter: each line of such a cart, received on
   * its product, leaves the unit cost between the old cost and the line's
   * price, because the costing denominator is positive.
   */
  lemma PositiveLineCostBounded(cart: seq<OrderItem>, ps: seq<Product>, j: nat, k: nat)
    requires PositiveQuantities(cart)
    requires j < |cart| && k < |ps| && ps[k].id == cart[j].productId && FirstOfItsId(ps, k)
    ensures var c := ReceiveItem(ps, cart[j])[k].cost;
      Min(ps[k].cost, cart[j].price) <= c <= Max(ps[k].cost, cart[j].price)
  {
    ReceiveItemEffect(ps, cart[j], k);
    WeightedCostBetween(ps[k].stock, ps[k].cost, cart[j].quantity, cart[j].price);
  }

  /** The header fields of an import, as the form collects them. */
  datatype ImportDetails = ImportDetails(
    note: string,
    taxStatus: TaxStatus,
    sellerName: string,
    sellerAddress: string,
    sellerIdCard: string,
    purchaseDay: int)

  /**
   * `handleSaveImportOrder`: nothing for an empty cart; otherwise a paid
   * IMPORT order for the cart's total, with no profit, no debt and no tax,
   * and no customer code.
   */
  function ImportOrder(cart: seq<OrderItem>, id: string, now: int, details: ImportDetails): (r: Option<Order>)
    ensures r.None? <==> |cart| == 0
    ensures r.Some? ==>
      && r.value.id == id && r.value.timestamp == now
      && r.value.kind == Some(Import) && r.value.items == cart
      && r.value.totalAmount == TotalAmount(cart) && r.value.amountGiven == r.value.totalAmount
      && r.value.debtAmount == 0 && r.value.profit == 0 && r.value.changeDue == 0
      && r.value.paymentStatus == Paid && r.value.customerCode.None?
      && r.value.taxStatus == Some(details.taxStatus) && r.value.taxAmount == Some(0)
      && r.value.purchaseDate == Some(details.purchaseDay)
  {
    if |cart| == 0 then None
    else
      var total := TotalAmount(cart);
      Some(Order(id, now, Some(Import), cart, total, 0, None, Paid, total, 0, 0, Some(details.note),
                 Some(details.taxStatus), Some(0), Some(details.sellerName), Some(details.sellerAddress),
                 Some(details.sellerIdCard), Some(details.purchaseDay)))
  }

  /**
   * Committing an import posts it to the GUEST customer, as written: GUEST's
   * spending grows by the import's total and nobody's debt changes.
   */
  lemma ImportCreditsGuest(cs: seq<Customer>, cart: seq<OrderItem>, id: string, now: int, details: ImportDetails,
                           quickName: string, newId: string)
    requires |cart| > 0
    ensures var o := ImportOrder(cart, id, now, details).value;
      var r := PostPurchase(cs, o, quickName, newId);
      && (forall j :: 0 <= j < |cs| ==> r[j].debt == cs[j].debt)
      && exists j :: 0 <= j < |r| && r[j].code == GuestCode &&
           r[j].totalSpent == (if j < |cs| then cs[j].totalSpent else 0) + o.totalAmount
  {
    var o := ImportOrder(cart, id, now, details).value;
    var r := PostPurchase(cs, o, quickName, newId);
    match KeyIndex(cs, CustomerCodeKey, GuestCode)
    case Some(i) =>
      assert r[i].code == GuestCode;
    case None =>
      assert r[..|cs|] == cs;
      forall j | 0 <= j < |cs| ensures r[j].debt == cs[j].debt {
        assert r[j] == r[..|cs|][j];
      }
      assert r[|cs|].code == GuestCode;
  }

  // ---------------------------------------------------------------------------
  // Cleanup count and valuations
  // ---------------------------------------------------------------------------

  /** `cleanupCount`: the number of non-service products with no stock. */
  function CleanupCount(ps: seq<Product>): (n: nat)
    ensures n <= |ps|
    ensures n == 0 <==> forall i :: 0 <= i < |ps| ==> !OutOfStock(ps[i])
    decreases |ps|
  {
    if |ps| == 0 then 0
    else CleanupCount(ps[..|ps| - 1]) + (if OutOfStock(ps[|ps| - 1]) then 1 else 0)
  }

  /** The count shown before a cleanup is the count the cleanup reports. */
  lemma {:induction false} CleanupCountIsDeletedCount(ps: seq<Product>)
    ensures CleanupCount(ps) == |OutOfStockIds(NormalizeProducts(ps))|
    decreases |ps|
  {
    var ns := NormalizeProducts(ps);
    if |ps| > 0 {
      var init := ps[..|ps| - 1];
      CleanupCountIsDeletedCount(init);
      assert NormalizeProducts(init) == ns[..|ns| - 1];
      assert OutOfStock(ns[|ns| - 1]) == OutOfStock(ps[|ps| - 1]);
    }
  }

  /** `inventoryValue`: Σ cost × stock over the products that are not services. */
  function InventoryValue(ps: seq<Product>): (r: int)
    ensures (forall i :: 0 <= i < |ps| ==> ps[i].category == PhotoService) ==> r == 0
    decreases |ps|
  {
    if |ps| == 0 then 0
    else
      var p := ps[|ps| - 1];
      InventoryValue(ps[..|ps| - 1]) + (if p.category == PhotoService then 0 else p.cost * p.stock)
  }

  /** `potentialTotalProfit`: Σ (price − cost) × stock over the products that are not services. */
  function PotentialTotalProfit(ps: seq<Product>): (r: int)
    ensures (forall i :: 0 <= i < |ps| ==> ps[i].category == PhotoService) ==> r == 0
    decreases |ps|
  {
    if |ps| == 0 then 0
    else
      var p := ps[|ps| - 1];
      PotentialTotalProfit(ps[..|ps| - 1]) + (if p.category == PhotoService then 0 else (p.price - p.cost) * p.stock)
  }

  /** Σ price × stock over the products that are not services. */
  function RetailValue(ps: seq<Product>): int
    decreases |ps|
  {
    if |ps| == 0 then 0
    else
      var p := ps[|ps| - 1];
      RetailValue(ps[..|ps| - 1]) + (if p.category == PhotoService then 0 else p.price * p.stock)
  }

  /** The potential profit is the stock's retail value less its cost value. */
  lemma {:induction false} PotentialProfitIsRetailLessCost(ps: seq<Product>)
    ensures PotentialTotalProfit(ps) == RetailValue(ps) - InventoryValue(ps)
    decreases |ps|
  {
    if |ps| > 0 {
      var p := ps[|ps| - 1];
      PotentialProfitIsRetailLessCost(ps[..|ps| - 1]);
      assert (p.price - p.cost) * p.stock == p.price * p.stock - p.cost * p.stock;
    }
  }

  /** With no negative stock or cost among goods, the inventory value is not negative. */
  lemma {:induction false} InventoryValueNonNegative(ps: seq<Product>)
    requires forall i :: 0 <= i < |ps| ==> ps[i].category == PhotoService || (ps[i].cost >= 0 && ps[i].stock >= 0)
    ensures InventoryValue(ps) >= 0
    decreases |ps|
  {
    if |ps| > 0 {
      var init := ps[..|ps| - 1];
      assert forall i :: 0 <= i < |init| ==> init[i] == ps[i];
      InventoryValueNonNegative(init);
      var p := ps[|ps| - 1];
      if p.category != PhotoService {
        MulLeft(p.cost, 0, p.stock);
      }
    }
  }
}
