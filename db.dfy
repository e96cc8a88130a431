/**
 * The relational store the services share: one map per table, keyed by row
 * id, the job queues as sequences, the id allocator and the order-number
 * sequence. `Valid` holds the referential facts every operation keeps;
 * `TotalsHold` is the cart-total invariant (a cart's `totalAmount` is the
 * sum of its lines' subtotals).
 */
module Db {
  import opened Common
  import opened Entities
  import opened JobQueue

  /** What the row with id `k` adds to the total of cart `cartId`. */
  function Contribution(items: map<Id, CartItem>, cartId: Id, k: Id): int
  {
    if k in items && items[k].cartId == cartId then items[k].subtotal else 0
  }

  /** Sum of the subtotals of the lines of `cartId` whose ids are below `n`:
      `SELECT SUM(subtotal) FROM cartItems WHERE cartId = ...`, with the
      empty sum read as 0. */
  function CartSum(items: map<Id, CartItem>, cartId: Id, n: nat): int
  {
    if n == 0 then 0 else CartSum(items, cartId, n - 1) + Contribution(items, cartId, n - 1)
  }

  /** Two tables that agree on every row of a cart below `n` give that cart
      the same sum. */
  lemma {:induction false} CartSumAgree(items: map<Id, CartItem>, items': map<Id, CartItem>, cartId: Id, n: nat)
    requires forall k :: 0 <= k < n ==> Contribution(items, cartId, k) == Contribution(items', cartId, k)
    ensures CartSum(items, cartId, n) == CartSum(items', cartId, n)
  {
    if n > 0 {
      CartSumAgree(items, items', cartId, n - 1);
    }
  }

  /** A cart without lines sums to 0. */
  lemma {:induction false} CartSumNoLines(items: map<Id, CartItem>, cartId: Id, n: nat)
    requires forall k :: k in items ==> items[k].cartId != cartId
    ensures CartSum(items, cartId, n) == 0
  {
    if n > 0 {
      CartSumNoLines(items, cartId, n - 1);
    }
  }

  /** Rows at or above `n` do not exist, so raising the bound changes nothing. */
  lemma {:induction false} CartSumBeyond(items: map<Id, CartItem>, cartId: Id, n: nat, m: nat)
    requires n <= m
    requires forall k :: k in items ==> k < n
    ensures CartSum(items, cartId, m) == CartSum(items, cartId, n)
    decreases m - n
  {
    if m > n {
      CartSumBeyond(items, cartId, n, m - 1);
    }
  }

  /** A change confined to the rows of `cartId` leaves every other cart's sum alone. */
  lemma CartSumOtherCarts(items: map<Id, CartItem>, items': map<Id, CartItem>, cartId: Id, c: Id, n: nat)
    requires c != cartId
    requires forall k :: k in items && items[k].cartId != cartId ==> k in items' && items'[k] == items[k]
    requires forall k :: k in items' && items'[k].cartId != cartId ==> k in items && items[k] == items'[k]
    ensures CartSum(items, c, n) == CartSum(items', c, n)
  {
    CartSumAgree(items, items', c, n);
  }

  /** Raising the id bound keeps every stored total equal to its sum. */
  lemma TotalsKeptBeyond(carts: map<Id, Cart>, items: map<Id, CartItem>, n: nat, n': nat)
    requires n <= n'
    requires forall k :: k in items ==> k < n
    requires forall c :: c in carts ==> carts[c].totalAmount == CartSum(items, c, n)
    ensures forall c :: c in carts ==> carts[c].totalAmount == CartSum(items, c, n')
  {
    forall c | c in carts
      ensures carts[c].totalAmount == CartSum(items, c, n')
    {
      CartSumBeyond(items, c, n, n');
    }
  }

  /** A bulk insert: `rows[i]` is stored under id `start + i`. */
  function InsertRows<V>(m: map<Id, V>, start: Id, rows: seq<V>): (r: map<Id, V>)
    ensures forall k :: k in r <==> k in m || start <= k < start + |rows|
    decreases |rows|
  {
    if rows == [] then m else InsertRows(m[start := rows[0]], start + 1, rows[1..])
  }

  /** The inserted rows sit at their ids, and every other row is kept. */
  lemma {:induction false} InsertRowsValues<V>(m: map<Id, V>, start: Id, rows: seq<V>)
    ensures forall i :: 0 <= i < |rows| ==> InsertRows(m, start, rows)[start + i] == rows[i]
    ensures forall k :: k in m && !(start <= k < start + |rows|) ==> InsertRows(m, start, rows)[k] == m[k]
    decreases |rows|
  {
    if rows != [] {
      InsertRowsValues(m[start := rows[0]], start + 1, rows[1..]);
    }
  }

  predicate ActiveCartOf(cart: Cart, userId: Id)
  {
    cart.userId == userId && cart.status == CartActive
  }

  /** The (cartId, productId, variantId) triple that identifies a cart line. */
  predicate SameLine(a: CartItem, b: CartItem)
  {
    a.cartId == b.cartId && a.productId == b.productId && a.variantId == b.variantId
  }

  /** At most one line per (cart, product, variant). */
  predicate UniqueLines(items: map<Id, CartItem>)
  {
    forall a, b {:trigger SameLine(items[a], items[b])} :: a in items && b in items && SameLine(items[a], items[b]) ==> a == b
  }

  /** Writing `line` at `itemId` keeps the lines unique when it replaces a
      line with the same key, or when no other line has its key. */
  lemma PutLineUnique(items: map<Id, CartItem>, itemId: Id, line: CartItem)
    requires itemId in items ==> SameLine(items[itemId], line)
    ensures UniqueLines(items) && (forall k :: k in items && k != itemId ==> !SameLine(items[k], line)) ==>
            UniqueLines(items[itemId := line])
  {
  }

  /** In a table of unique lines, a line's key is held by no other row. */
  lemma OnlyLineWithKey(items: map<Id, CartItem>, itemId: Id, line: CartItem)
    requires UniqueLines(items)
    requires itemId in items && SameLine(items[itemId], line)
    ensures forall k :: k in items && k != itemId ==> !SameLine(items[k], line)
  {
    forall k | k in items && k != itemId
      ensures !SameLine(items[k], line)
    {
      var a, b := items[k], items[itemId];
      assert SameLine(a, line) ==> SameLine(a, b);
    }
  }

  /** Editing a line without changing its key keeps the lines unique. */
  lemma ReplaceLineUnique(items: map<Id, CartItem>, itemId: Id, line: CartItem)
    requires UniqueLines(items)
    requires itemId in items && SameLine(items[itemId], line)
    ensures UniqueLines(items[itemId := line])
  {
    OnlyLineWithKey(items, itemId, line);
    PutLineUnique(items, itemId, line);
  }

  /** Dropping lines keeps the rest unique. */
  lemma SubmapUnique(items: map<Id, CartItem>, items': map<Id, CartItem>)
    requires UniqueLines(items)
    requires forall k :: k in items' ==> k in items && items'[k] == items[k]
    ensures UniqueLines(items')
  {
    forall a, b | a in items' && b in items' && SameLine(items'[a], items'[b])
      ensures a == b
    {
      assert SameLine(items[a], items[b]);
    }
  }

  class Store {
    var users: map<Id, User>
    var otps: map<Id, Otp>
    var products: map<Id, Product>
    var variants: map<Id, Variant>
    var carts: map<Id, Cart>
    var cartItems: map<Id, CartItem>
    var orders: map<Id, Order>
    var orderItems: map<Id, OrderItem>
    var payments: map<Id, Payment>
    /** Jobs added to each queue, oldest first. */
    var paymentJobs: seq<Job>
    var notificationJobs: seq<Job>
    /** The next row id to hand out. */
    var nextId: nat
    /** The last value taken from `order_number_seq` (0 before the first). */
    var orderSeq: nat
    /** The last value taken from `product_variant_sku_seq` (0 before the first). */
    var skuSeq: nat

    ghost predicate IdsBelow()
      reads this
    {
      && (forall k :: k in users ==> k < nextId)
      && (forall k :: k in otps ==> k < nextId)
      && (forall k :: k in products ==> k < nextId)
      && (forall k :: k in variants ==> k < nextId)
      && (forall k :: k in carts ==> k < nextId)
      && (forall k :: k in cartItems ==> k < nextId)
      && (forall k :: k in orders ==> k < nextId)
      && (forall k :: k in orderItems ==> k < nextId)
      && (forall k :: k in payments ==> k < nextId)
    }

    ghost predicate Valid()
      reads this
    {
      && IdsBelow()
      // every line belongs to an existing cart
      && (forall k :: k in cartItems ==> cartItems[k].cartId in carts)
      && OneActiveCartPerUser()
    }

    /** At most one line per (cart, product, variant). The cart service
        keeps this; deleting a variant (its lines' `variantId` is set to
        NULL) can break it, so it is not part of `Valid`. */
    ghost predicate LinesUnique()
      reads this
    {
      UniqueLines(cartItems)
    }

    /** At most one active cart per user. */
    ghost predicate OneActiveCartPerUser()
      reads this
    {
      forall a, b ::
        (a in carts && b in carts && carts[a].userId == carts[b].userId &&
         carts[a].status == CartActive && carts[b].status == CartActive) ==> a == b
    }

    /** The sum of the subtotals of a cart's lines. */
    ghost function LineTotal(cartId: Id): int
      reads this
    {
      CartSum(cartItems, cartId, nextId)
    }

    /** The cart-total invariant. */
    ghost predicate TotalsHold()
      reads this
    {
      forall c :: c in carts ==> carts[c].totalAmount == LineTotal(c)
    }

    constructor ()
      ensures Valid() && TotalsHold()
      ensures users == map[] && otps == map[] && products == map[] && variants == map[]
      ensures carts == map[] && cartItems == map[] && orders == map[] && orderItems == map[]
      ensures payments == map[] && paymentJobs == [] && notificationJobs == []
      ensures nextId == 0 && orderSeq == 0 && skuSeq == 0
    {
      users, otps, products, variants := map[], map[], map[], map[];
      carts, cartItems, orders, orderItems, payments := map[], map[], map[], map[], map[];
      paymentJobs, notificationJobs := [], [];
      nextId, orderSeq, skuSeq := 0, 0, 0;
    }
  }

  /** The first row (lowest id) of a table that satisfies `p`: the row a
      `findOne` with that `where` clause returns. */
  method FindFirst<V>(m: map<Id, V>, bound: nat, p: V -> bool) returns (k: Option<Id>)
    requires forall j :: j in m ==> j < bound
    ensures k.Some? ==> k.value in m && p(m[k.value])
    ensures k.Some? ==> forall j :: j in m && j < k.value ==> !p(m[j])
    ensures k.None? ==> forall j :: j in m ==> !p(m[j])
  {
    var i := 0;
    while i < bound
      invariant i <= bound
      invariant forall j :: j in m && j < i ==> !p(m[j])
    {
      if i in m && p(m[i]) {
        return Some(i);
      }
      i := i + 1;
    }
    return None;
  }

  /** The newest row (highest id) of a table that satisfies `p`: a `findOne`
      ordered by creation time, newest first. */
  method FindNewest<V>(m: map<Id, V>, bound: nat, p: V -> bool) returns (k: Option<Id>)
    requires forall j :: j in m ==> j < bound
    ensures k.Some? ==> k.value in m && p(m[k.value])
    ensures k.Some? ==> forall j :: j in m && j > k.value ==> !p(m[j])
    ensures k.None? ==> forall j :: j in m ==> !p(m[j])
  {
    var i := bound;
    while i > 0
      invariant forall j :: j in m && j >= i ==> !p(m[j])
    {
      i := i - 1;
      if i in m && p(m[i]) {
        return Some(i);
      }
    }
    return None;
  }
}
