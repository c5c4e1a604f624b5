/**
 * Entities of the shop ledger (products, customers, orders and their items)
 * and the small sequence helpers every other module leans on.
 *
 * Money is counted in whole VND, so every amount is an `int`. A timestamp is a
 * number of milliseconds since the epoch; its calendar day is the UTC day that
 * an ISO date string of it names.
 */
module Types {

  datatype Option<+T> = None | Some(value: T)

  /** An operation's outcome: a value, or the reason it was refused. */
  datatype Result<+T, +E> = Ok(value: T) | Err(error: E)

  datatype ProductCategory = Stationery | PhotoService | Books | OtherCategory
  datatype CustomerGroup = Retail | Wholesale
  datatype PaymentStatus = Paid | Debt | Partial
  datatype OrderType = Sale | DebtCollection | Import
  datatype TaxStatus = Taxed | NoTax

  datatype Product = Product(
    id: string,
    code: string,
    name: string,
    category: ProductCategory,
    price: int,
    wholesalePrice: Option<int>,
    cost: int,
    stock: int)

  datatype Customer = Customer(
    id: string,
    code: string,
    name: string,
    phone: string,
    group: CustomerGroup,
    totalSpent: int,
    debt: int,
    lastPurchaseDate: Option<int>)

  /** A cart or order line; an absent `isCustomPrice` flag reads as false. */
  datatype OrderItem = OrderItem(
    productId: string,
    productName: string,
    quantity: int,
    price: int,
    isCustomPrice: bool)

  /** `kind` is the order's optional `type`; `purchaseDate` is a day number. */
  datatype Order = Order(
    id: string,
    timestamp: int,
    kind: Option<OrderType>,
    items: seq<OrderItem>,
    totalAmount: int,
    profit: int,
    customerCode: Option<string>,
    paymentStatus: PaymentStatus,
    amountGiven: int,
    changeDue: int,
    debtAmount: int,
    note: Option<string>,
    taxStatus: Option<TaxStatus>,
    taxAmount: Option<int>,
    sellerName: Option<string>,
    sellerAddress: Option<string>,
    sellerIdCard: Option<string>,
    purchaseDate: Option<int>)

  /** One bucket of the dashboard's trailing window; `date` is a day number. */
  datatype DailyStat = DailyStat(date: int, revenue: int, orders: int, profit: int)

  const MsPerDay: int := 86400000

  /** The UTC calendar day (days since the epoch) a timestamp falls on. */
  function DayOf(timestamp: int): (day: int)
    ensures day * MsPerDay <= timestamp < (day + 1) * MsPerDay
  {
    timestamp / MsPerDay
  }

  function Max(a: int, b: int): (m: int)
    ensures m >= a && m >= b && (m == a || m == b)
  {
    if a >= b then a else b
  }

  function Min(a: int, b: int): (m: int)
    ensures m <= a && m <= b && (m == a || m == b)
  {
    if a <= b then a else b
  }

  /** JavaScript's `s || fallback` on an optional string: absent or empty falls back. */
  function OrElse(s: Option<string>, fallback: string): (r: string)
    ensures s.Some? && s.value != "" ==> r == s.value
    ensures s.None? || s.value == "" ==> r == fallback
  {
    if s.Some? && s.value != "" then s.value else fallback
  }

  /** JavaScript's `x || fallback` on an optional number: absent or zero falls back. */
  function NonZeroOr(x: Option<int>, fallback: int): (r: int)
    ensures x.Some? && x.value != 0 ==> r == x.value
    ensures x.None? || x.value == 0 ==> r == fallback
  {
    if x.Some? && x.value != 0 then x.value else fallback
  }

  /** The elements of `s` that `keep` accepts, in their original order. */
  function Filter<T(!new)>(s: seq<T>, keep: T -> bool): (r: seq<T>)
    ensures |r| <= |s|
    ensures forall x :: multiset(r)[x] == if keep(x) then multiset(s)[x] else 0
    ensures forall x :: x in r <==> x in s && keep(x)
  {
    if |s| == 0 then []
    else
      var rest := Filter(s[..|s| - 1], keep);
      assert s == s[..|s| - 1] + [s[|s| - 1]];
      if keep(s[|s| - 1]) then rest + [s[|s| - 1]] else rest
  }

  /** Filtering distributes over concatenation, so it keeps relative order. */
  lemma {:induction false} FilterAppend<T(!new)>(a: seq<T>, b: seq<T>, keep: T -> bool)
    ensures Filter(a + b, keep) == Filter(a, keep) + Filter(b, keep)
    decreases |b|
  {
    if |b| == 0 {
      assert a + b == a;
    } else {
      var b' := b[..|b| - 1];
      assert (a + b)[..|a + b| - 1] == a + b';
      FilterAppend(a, b', keep);
    }
  }

  /** A filter that accepts every element returns the sequence unchanged. */
  lemma {:induction false} FilterKeepsAll<T(!new)>(s: seq<T>, keep: T -> bool)
    requires forall i :: 0 <= i < |s| ==> keep(s[i])
    ensures Filter(s, keep) == s
    decreases |s|
  {
    if |s| > 0 {
      FilterKeepsAll(s[..|s| - 1], keep);
      assert s == s[..|s| - 1] + [s[|s| - 1]];
    }
  }

  /** Index of the first element `matches` accepts, as JavaScript's `findIndex`. */
  function FirstIndex<T>(s: seq<T>, matches: T -> bool): (r: Option<nat>)
    ensures r.Some? ==> r.value < |s| && matches(s[r.value])
    ensures r.Some? ==> forall j :: 0 <= j < r.value ==> !matches(s[j])
    ensures r.None? ==> forall j :: 0 <= j < |s| ==> !matches(s[j])
  {
    if |s| == 0 then None
    else if matches(s[0]) then Some(0)
    else
      match FirstIndex(s[1..], matches)
      case None => None
      case Some(k) => Some(k + 1)
  }

  /** Index of the first element whose key is `k`. */
  function KeyIndex<T>(s: seq<T>, key: T -> string, k: string): (r: Option<nat>)
    ensures r.Some? ==> r.value < |s| && key(s[r.value]) == k
    ensures r.Some? ==> forall j :: 0 <= j < r.value ==> key(s[j]) != k
    ensures r.None? ==> forall j :: 0 <= j < |s| ==> key(s[j]) != k
  {
    FirstIndex(s, (x: T) => key(x) == k)
  }

  /** No two elements share a key. */
  predicate DistinctKeys<T>(s: seq<T>, key: T -> string)
  {
    forall i, j :: 0 <= i < j < |s| ==> key(s[i]) != key(s[j])
  }

  function ProductKey(p: Product): string { p.id }
  function CustomerKey(c: Customer): string { c.id }
  function CustomerCodeKey(c: Customer): string { c.code }
  function OrderKey(o: Order): string { o.id }

  function ProductIndex(ps: seq<Product>, id: string): (r: Option<nat>)
    ensures r.Some? ==> r.value < |ps| && ps[r.value].id == id
    ensures r.Some? ==> forall j :: 0 <= j < r.value ==> ps[j].id != id
    ensures r.None? ==> forall j :: 0 <= j < |ps| ==> ps[j].id != id
  {
    KeyIndex(ps, ProductKey, id)
  }

  /** ASCII lower-casing of one character. */
  function LowerChar(c: char): (r: char)
    ensures 'A' <= c <= 'Z' ==> 'a' <= r <= 'z'
    ensures !('A' <= c <= 'Z') ==> r == c
  {
    if 'A' <= c <= 'Z' then (c as int + 32) as char else c
  }

  /** ASCII upper-casing of one character. */
  function UpperChar(c: char): (r: char)
    ensures 'a' <= c <= 'z' ==> 'A' <= r <= 'Z'
    ensures !('a' <= c <= 'z') ==> r == c
  {
    if 'a' <= c <= 'z' then (c as int - 32) as char else c
  }

  function ToLower(s: string): (r: string)
    ensures |r| == |s| && forall i :: 0 <= i < |s| ==> r[i] == LowerChar(s[i])
  {
    seq(|s|, i requires 0 <= i < |s| => LowerChar(s[i]))
  }

  function ToUpper(s: string): (r: string)
    ensures |r| == |s| && forall i :: 0 <= i < |s| ==> r[i] == UpperChar(s[i])
  {
    seq(|s|, i requires 0 <= i < |s| => UpperChar(s[i]))
  }

  /** `part` occurs in `s` starting at index `i`. */
  ghost predicate OccursAt(s: string, part: string, i: int)
  {
    0 <= i && i + |part| <= |s| && s[i..i + |part|] == part
  }

  /** JavaScript's `s.includes(part)`: a prefix of `s` or of one of its suffixes. */
  predicate Includes(s: string, part: string)
    decreases |s|
  {
    part <= s || (|s| > 0 && Includes(s[1..], part))
  }

  /** `Includes` holds exactly when `part` occurs at some index of `s`. */
  lemma {:induction false} IncludesIffOccurs(s: string, part: string)
    ensures Includes(s, part) <==> exists i :: OccursAt(s, part, i)
    decreases |s|
  {
    if part <= s {
      assert OccursAt(s, part, 0);
    } else if |s| > 0 {
      IncludesIffOccurs(s[1..], part);
      if Includes(s[1..], part) {
        var i :| OccursAt(s[1..], part, i);
        assert s[1..][i..i + |part|] == s[i + 1..i + 1 + |part|];
        assert OccursAt(s, part, i + 1);
      }
      forall i | OccursAt(s, part, i)
        ensures Includes(s[1..], part)
      {
        if i > 0 {
          assert s[1..][i - 1..i - 1 + |part|] == s[i..i + |part|];
          assert OccursAt(s[1..], part, i - 1);
        }
      }
    }
  }
}
