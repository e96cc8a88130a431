/**
 * The cart service: one active cart per user, found or created on demand;
 * lines keyed by (cart, product, variant) with a merge on re-adding; edits
 * and removals gated by ownership of an active cart; and the cart total,
 * recomputed as the full sum of the cart's line subtotals after every change.
 *
 * Every operation keeps `Valid()` and the total invariant `TotalsHold()`.
 */
module CartService {
  import opened Common
  import opened Entities
  import opened Db

  predicate HasActiveCart(carts: map<Id, Cart>, userId: Id)
  {
    exists c :: c in carts && ActiveCartOf(carts[c], userId)
  }

  /** The lines of one cart, as the `CartItems` include loads them. */
  function LinesOf(items: map<Id, CartItem>, cartId: Id): (lines: map<Id, CartItem>)
    ensures forall k :: k in lines <==> k in items && items[k].cartId == cartId
    ensures forall k :: k in lines ==> lines[k] == items[k]
  {
    map k | k in items && items[k].cartId == cartId :: items[k]
  }

  /** The line the ownership join finds: the item exists and its cart is the
      caller's active cart. */
  predicate OwnedLine(carts: map<Id, Cart>, items: map<Id, CartItem>, userId: Id, itemId: Id)
  {
    itemId in items && items[itemId].cartId in carts && ActiveCartOf(carts[items[itemId].cartId], userId)
  }

  // -----------------------------------------------------------------------
  // Line arithmetic

  /** Unit price of an added line: the variant's price when a variant was
      named, otherwise the product's price with a missing price read as 0. */
  function UnitPrice(product: Product, variant: Option<Variant>): (unit: int)
    ensures variant.Some? ==> unit == variant.value.price
    ensures variant.None? ==> unit == product.price.GetOr(0)
  {
    if variant.Some? then variant.value.price else product.price.GetOr(0)
  }

  /** A fresh line: the unit price is stored, the subtotal is quantity times it. */
  function NewLine(cartId: Id, productId: Id, variantId: Option<Id>, quantity: int, unit: int): (line: CartItem)
    ensures line.cartId == cartId && line.productId == productId && line.variantId == variantId
    ensures line.quantity == quantity && line.price == unit
    ensures line.subtotal == line.quantity * line.price
  {
    CartItem(cartId, productId, variantId, quantity, unit, quantity * unit)
  }

  /** Re-adding a line: the quantity grows, the subtotal is recomputed from
      the CURRENT unit price, and the stored price is left as it was. */
  function MergeLine(line: CartItem, quantity: int, unit: int): (merged: CartItem)
    ensures SameLine(merged, line) && merged.price == line.price
    ensures merged.quantity == line.quantity + quantity
    ensures merged.subtotal == merged.quantity * unit
  {
    var q := line.quantity + quantity;
    line.(quantity := q, subtotal := q * unit)
  }

  /** Editing a line's quantity recomputes the subtotal from its stored price. */
  function SetQuantity(line: CartItem, quantity: int): (edited: CartItem)
    ensures SameLine(edited, line) && edited.price == line.price && edited.quantity == quantity
    ensures edited.subtotal == edited.quantity * edited.price
  {
    line.(quantity := quantity, subtotal := quantity * line.price)
  }

  /** While the unit price has not moved, a merge keeps the line consistent
      (subtotal == quantity * price). */
  lemma MergeConsistentAtSamePrice(line: CartItem, quantity: int)
    requires line.subtotal == line.quantity * line.price
    ensures var m := MergeLine(line, quantity, line.price); m.subtotal == m.quantity * m.price
  {
  }

  /** Once the unit price has moved, a merge leaves a line whose subtotal is
      not its quantity times its stored price. */
  lemma MergeAfterPriceChange(line: CartItem, quantity: int, unit: int)
    requires unit != line.price
    requires line.quantity + quantity != 0
    ensures var m := MergeLine(line, quantity, unit); m.subtotal != m.quantity * m.price
  {
    var m := MergeLine(line, quantity, unit);
    assert m.subtotal - m.quantity * m.price == m.quantity * (unit - line.price);
  }

  // -----------------------------------------------------------------------
  // Totals

  /** `updateCartTotal`'s query: the sum of the subtotals of the cart's lines. */
  method ComputeCartTotal(db: Store, cartId: Id) returns (total: int)
    ensures total == db.LineTotal(cartId)
  {
    total := 0;
    var k := 0;
    while k < db.nextId
      invariant k <= db.nextId
      invariant total == CartSum(db.cartItems, cartId, k)
    {
      if k in db.cartItems && db.cartItems[k].cartId == cartId {
        total := total + db.cartItems[k].subtotal;
      }
      k := k + 1;
    }
  }

  /** A change of the line table confined to one cart, with the id bound
      raised, keeps every other cart's stored total equal to its sum. */
  lemma OtherTotalsKept(carts: map<Id, Cart>, items: map<Id, CartItem>, items': map<Id, CartItem>,
                        cartId: Id, n: nat, n': nat)
    requires n <= n'
    requires forall k :: k in items ==> k < n
    requires forall c :: c in carts ==> carts[c].totalAmount == CartSum(items, c, n)
    requires forall k :: k in items && items[k].cartId != cartId ==> k in items' && items'[k] == items[k]
    requires forall k :: k in items' && items'[k].cartId != cartId ==> k in items && items[k] == items'[k]
    ensures forall c :: c in carts && c != cartId ==> carts[c].totalAmount == CartSum(items', c, n')
  {
    forall c | c in carts && c != cartId
      ensures carts[c].totalAmount == CartSum(items', c, n')
    {
      CartSumOtherCarts(items, items', cartId, c, n');
      CartSumBeyond(items, c, n, n');
    }
  }

  /** Writing one line of `line.cartId` leaves every other cart's sum alone. */
  lemma PutKeepsOtherTotals(carts: map<Id, Cart>, items: map<Id, CartItem>, itemId: Id, line: CartItem, n: nat, n': nat)
    requires n <= n'
    requires forall k :: k in items ==> k < n
    requires itemId in items ==> items[itemId].cartId == line.cartId
    requires forall c :: c in carts ==> carts[c].totalAmount == CartSum(items, c, n)
    ensures forall c :: c in carts && c != line.cartId ==> carts[c].totalAmount == CartSum(items[itemId := line], c, n')
  {
    OtherTotalsKept(carts, items, items[itemId := line], line.cartId, n, n');
  }

  /** `updateCartTotal`: stores the recomputed sum on the cart (a missing
      cart makes the update a no-op). */
  method UpdateCartTotal(db: Store, cartId: Id)
    requires db.Valid()
    requires forall c :: c in db.carts && c != cartId ==> db.carts[c].totalAmount == db.LineTotal(c)
    modifies db
    ensures db.Valid() && db.TotalsHold()
    ensures cartId in old(db.carts) ==>
      db.carts == old(db.carts)[cartId := old(db.carts[cartId]).(totalAmount := old(db.LineTotal(cartId)))]
    ensures cartId !in old(db.carts) ==> db.carts == old(db.carts)
    ensures unchanged(db`users, db`otps, db`products, db`variants, db`cartItems, db`orders)
    ensures unchanged(db`orderItems, db`payments, db`paymentJobs, db`notificationJobs, db`nextId, db`orderSeq, db`skuSeq)
  {
    var total := ComputeCartTotal(db, cartId);
    if cartId in db.carts {
      db.carts := db.carts[cartId := db.carts[cartId].(totalAmount := total)];
    }
  }

  // -----------------------------------------------------------------------
  // Operations

  /** The find-or-create step both `getOrCreateCart` and `addItemToCart`
      begin with. */
  method EnsureActiveCart(db: Store, userId: Id) returns (cartId: Id)
    requires db.Valid() && db.TotalsHold()
    modifies db
    ensures db.Valid() && db.TotalsHold()
    ensures cartId in db.carts && ActiveCartOf(db.carts[cartId], userId)
    ensures HasActiveCart(old(db.carts), userId) ==>
      cartId in old(db.carts) && db.carts == old(db.carts) && db.nextId == old(db.nextId)
    ensures !HasActiveCart(old(db.carts), userId) ==>
      cartId == old(db.nextId) && db.nextId == old(db.nextId) + 1 &&
      db.carts == old(db.carts)[cartId := Cart(userId, CartActive, 0)]
    ensures unchanged(db`users, db`otps, db`products, db`variants, db`cartItems, db`orders)
    ensures unchanged(db`orderItems, db`payments, db`paymentJobs, db`notificationJobs, db`orderSeq, db`skuSeq)
  {
    var found := FindFirst(db.carts, db.nextId, (c: Cart) => ActiveCartOf(c, userId));
    if found.Some? {
      cartId := found.value;
    } else {
      assert !HasActiveCart(db.carts, userId);
      ghost var n := db.nextId;
      cartId := db.nextId;
      db.carts := db.carts[cartId := Cart(userId, CartActive, 0)];
      db.nextId := db.nextId + 1;
      forall c | c in db.carts
        ensures db.carts[c].totalAmount == db.LineTotal(c)
      {
        if c == cartId {
          CartSumNoLines(db.cartItems, cartId, db.nextId);
        } else {
          CartSumBeyond(db.cartItems, c, n, db.nextId);
        }
      }
    }
  }

  /** `getOrCreateCart`: the caller's active cart with its lines, created
      empty when there is none. */
  method GetOrCreateCart(db: Store, userId: Id) returns (cartId: Id, cart: Cart, lines: map<Id, CartItem>)
    requires db.Valid() && db.TotalsHold()
    modifies db
    ensures db.Valid() && db.TotalsHold()
    ensures cartId in db.carts && db.carts[cartId] == cart && ActiveCartOf(cart, userId)
    ensures lines == LinesOf(db.cartItems, cartId)
    ensures HasActiveCart(old(db.carts), userId) ==>
      cartId in old(db.carts) && db.carts == old(db.carts) && db.nextId == old(db.nextId)
    ensures !HasActiveCart(old(db.carts), userId) ==>
      cartId == old(db.nextId) && cart == Cart(userId, CartActive, 0) && lines == map[] &&
      db.carts == old(db.carts)[cartId := cart] && db.nextId == old(db.nextId) + 1
    ensures unchanged(db`users, db`otps, db`products, db`variants, db`cartItems, db`orders)
    ensures unchanged(db`orderItems, db`payments, db`paymentJobs, db`notificationJobs, db`orderSeq, db`skuSeq)
  {
    ghost var n := db.nextId;
    cartId := EnsureActiveCart(db, userId);
    cart := db.carts[cartId];
    lines := LinesOf(db.cartItems, cartId);
    if cartId == n {
      assert forall k :: k in db.cartItems ==> db.cartItems[k].cartId != cartId;
    }
  }

  /** Writes one line of a cart: a merged line over its old row, or a new
      row at the next id. Every other cart keeps its total. */
  method WriteLine(db: Store, itemId: Id, line: CartItem)
    requires db.Valid() && db.TotalsHold() && line.cartId in db.carts
    requires itemId in db.cartItems ==> SameLine(db.cartItems[itemId], line)
    requires itemId !in db.cartItems ==> itemId == db.nextId
    modifies db
    ensures db.Valid()
    ensures forall c :: c in db.carts && c != line.cartId ==> db.carts[c].totalAmount == db.LineTotal(c)
    ensures old(db.LinesUnique()) && (forall k :: k in old(db.cartItems) && k != itemId ==> !SameLine(old(db.cartItems)[k], line)) ==>
      db.LinesUnique()
    ensures db.cartItems == old(db.cartItems)[itemId := line]
    ensures db.nextId == if itemId in old(db.cartItems) then old(db.nextId) else old(db.nextId) + 1
    ensures unchanged(db`users, db`otps, db`products, db`variants, db`carts, db`orders)
    ensures unchanged(db`orderItems, db`payments, db`paymentJobs, db`notificationJobs, db`orderSeq, db`skuSeq)
  {
    PutLineUnique(db.cartItems, itemId, line);
    if itemId !in db.cartItems {
      PutKeepsOtherTotals(db.carts, db.cartItems, itemId, line, db.nextId, db.nextId + 1);
      db.nextId := db.nextId + 1;
    } else {
      PutKeepsOtherTotals(db.carts, db.cartItems, itemId, line, db.nextId, db.nextId);
    }
    db.cartItems := db.cartItems[itemId := line];
  }

  /** Writes one line of a cart and recomputes that cart's total. */
  method PutLine(db: Store, itemId: Id, line: CartItem)
    requires db.Valid() && db.TotalsHold() && line.cartId in db.carts
    requires itemId in db.cartItems ==> SameLine(db.cartItems[itemId], line)
    requires itemId !in db.cartItems ==> itemId == db.nextId
    modifies db
    ensures db.Valid() && db.TotalsHold()
    ensures old(db.LinesUnique()) && (forall k :: k in old(db.cartItems) && k != itemId ==> !SameLine(old(db.cartItems)[k], line)) ==>
      db.LinesUnique()
    ensures db.cartItems == old(db.cartItems)[itemId := line]
    ensures db.nextId == if itemId in old(db.cartItems) then old(db.nextId) else old(db.nextId) + 1
    ensures db.carts == old(db.carts)[line.cartId := old(db.carts)[line.cartId].(totalAmount := db.LineTotal(line.cartId))]
    ensures unchanged(db`users, db`otps, db`products, db`variants, db`orders)
    ensures unchanged(db`orderItems, db`payments, db`paymentJobs, db`notificationJobs, db`orderSeq, db`skuSeq)
  {
    WriteLine(db, itemId, line);
    ghost var u := db.LinesUnique();
    UpdateCartTotal(db, line.cartId);
    assert u == db.LinesUnique();
  }

  /** The line-table half of `addItemToCart`: merge into the cart's line
      for (product, variant) when there is one, otherwise insert a fresh
      line; then recompute the cart total. */
  method UpsertLine(db: Store, cartId: Id, productId: Id, variantId: Option<Id>, quantity: int, unit: int)
    returns (itemId: Id, line: CartItem)
    requires db.Valid() && db.TotalsHold() && cartId in db.carts
    modifies db
    ensures db.Valid() && db.TotalsHold()
    ensures old(db.LinesUnique()) ==> db.LinesUnique()
    ensures line.cartId == cartId && line.productId == productId && line.variantId == variantId
    ensures db.cartItems == old(db.cartItems)[itemId := line]
    ensures itemId in old(db.cartItems) ==>
      line == MergeLine(old(db.cartItems)[itemId], quantity, unit) && db.nextId == old(db.nextId)
    ensures itemId !in old(db.cartItems) ==>
      line == NewLine(cartId, productId, variantId, quantity, unit) &&
      (forall k :: k in old(db.cartItems) ==> !SameLine(old(db.cartItems)[k], line)) &&
      itemId == old(db.nextId) && db.nextId == old(db.nextId) + 1
    ensures db.carts == old(db.carts)[cartId := old(db.carts)[cartId].(totalAmount := db.LineTotal(cartId))]
    ensures unchanged(db`users, db`otps, db`products, db`variants, db`orders)
    ensures unchanged(db`orderItems, db`payments, db`paymentJobs, db`notificationJobs, db`orderSeq, db`skuSeq)
  {
    var probe := NewLine(cartId, productId, variantId, quantity, unit);
    var existing := FindFirst(db.cartItems, db.nextId, (l: CartItem) => SameLine(l, probe));
    if existing.Some? {
      itemId := existing.value;
      line := MergeLine(db.cartItems[itemId], quantity, unit);
      if db.LinesUnique() {
        OnlyLineWithKey(db.cartItems, itemId, line);
      }
    } else {
      itemId := db.nextId;
      line := probe;
    }
    PutLine(db, itemId, line);
  }

  /** `addItemToCart`. The active cart is found or created first, so it
      persists even when the product or variant check then fails. On
      success the answer is the added or merged line and its id. */
  method AddItemToCart(db: Store, userId: Id, productId: Id, variantId: Option<Id>, quantity: int)
    returns (r: Result<(Id, CartItem)>, ghost cartId: Id)
    requires quantity >= 1
    requires db.Valid() && db.TotalsHold()
    modifies db
    ensures db.Valid() && db.TotalsHold()
    ensures old(db.LinesUnique()) ==> db.LinesUnique()
    ensures cartId in db.carts && ActiveCartOf(db.carts[cartId], userId)
    ensures HasActiveCart(old(db.carts), userId) ==> cartId in old(db.carts)
    ensures !HasActiveCart(old(db.carts), userId) ==> cartId == old(db.nextId)
    ensures productId !in old(db.products) ==> r == Err(NotFound("Product not found"))
    ensures productId in old(db.products) && variantId.Some? &&
            !(variantId.value in old(db.variants) && old(db.variants)[variantId.value].productId == productId) ==>
            r == Err(NotFound("Variant not found for this product"))
    ensures r.Ok? <==>
      && productId in old(db.products)
      && (variantId.None? || (variantId.value in old(db.variants) && old(db.variants)[variantId.value].productId == productId))
    // the cart table after the find-or-create step
    ensures var created := !HasActiveCart(old(db.carts), userId);
      var carts := if created then old(db.carts)[cartId := Cart(userId, CartActive, 0)] else old(db.carts);
      var next := if created then old(db.nextId) + 1 else old(db.nextId);
      && (r.Err? ==> db.carts == carts && db.nextId == next)
      && (r.Ok? ==>
           && db.carts == carts[cartId := carts[cartId].(totalAmount := db.LineTotal(cartId))]
           && db.nextId == (if r.value.0 in old(db.cartItems) then next else next + 1)
           && (r.value.0 !in old(db.cartItems) ==> r.value.0 == next))
    ensures r.Err? ==> db.cartItems == old(db.cartItems)
    ensures r.Ok? ==>
      var (itemId, line) := r.value;
      var unit := UnitPrice(old(db.products)[productId],
                            if variantId.Some? then Some(old(db.variants)[variantId.value]) else None);
      && productId in old(db.products)
      && itemId in db.cartItems && db.cartItems[itemId] == line
      && line.cartId == cartId && line.productId == productId && line.variantId == variantId
      // a duplicate line is merged in place; otherwise a fresh row is added
      && (if itemId in old(db.cartItems)
          then SameLine(old(db.cartItems)[itemId], line) && line == MergeLine(old(db.cartItems)[itemId], quantity, unit)
          else line == NewLine(cartId, productId, variantId, quantity, unit)
               && (forall k :: k in old(db.cartItems) ==> !SameLine(old(db.cartItems)[k], line)))
      && db.cartItems == old(db.cartItems)[itemId := line]
    ensures unchanged(db`users, db`otps, db`products, db`variants, db`orders)
    ensures unchanged(db`orderItems, db`payments, db`paymentJobs, db`notificationJobs, db`orderSeq, db`skuSeq)
  {
    var cid := EnsureActiveCart(db, userId);
    cartId := cid;
    if productId !in db.products {
      return Err(NotFound("Product not found")), cartId;
    }
    var product := db.products[productId];
    var variant: Option<Variant> := None;
    if variantId.Some? {
      if !(variantId.value in db.variants && db.variants[variantId.value].productId == productId) {
        return Err(NotFound("Variant not found for this product")), cartId;
      }
      variant := Some(db.variants[variantId.value]);
    }
    var unit := UnitPrice(product, variant);
    var itemId, line := UpsertLine(db, cid, productId, variantId, quantity, unit);
    r := Ok((itemId, line));
  }

  /** `updateCartItem`: sets the quantity of a line of the caller's active
      cart; any other line is answered with NotFound. */
  method UpdateCartItem(db: Store, userId: Id, itemId: Id, quantity: int) returns (r: Result<CartItem>)
    requires quantity >= 1
    requires db.Valid() && db.TotalsHold()
    modifies db
    ensures db.Valid() && db.TotalsHold()
    ensures old(db.LinesUnique()) ==> db.LinesUnique()
    ensures !OwnedLine(old(db.carts), old(db.cartItems), userId, itemId) ==>
      r == Err(NotFound("Cart item not found")) && db.carts == old(db.carts) && db.cartItems == old(db.cartItems)
    ensures OwnedLine(old(db.carts), old(db.cartItems), userId, itemId) ==>
      var cid := old(db.cartItems)[itemId].cartId;
      && r == Ok(SetQuantity(old(db.cartItems)[itemId], quantity))
      && db.cartItems == old(db.cartItems)[itemId := r.value]
      // only the line's own cart changes, and only in its total
      && db.carts == old(db.carts)[cid := old(db.carts)[cid].(totalAmount := db.LineTotal(cid))]
    ensures unchanged(db`users, db`otps, db`products, db`variants, db`orders, db`nextId)
    ensures unchanged(db`orderItems, db`payments, db`paymentJobs, db`notificationJobs, db`orderSeq, db`skuSeq)
  {
    if !OwnedLine(db.carts, db.cartItems, userId, itemId) {
      return Err(NotFound("Cart item not found"));
    }
    var line := SetQuantity(db.cartItems[itemId], quantity);
    if db.LinesUnique() {
      OnlyLineWithKey(db.cartItems, itemId, line);
    }
    WriteLine(db, itemId, line);
    UpdateCartTotal(db, line.cartId);
    r := Ok(line);
  }

  /** `removeCartItem`: deletes a line of the caller's active cart; any
      other line is answered with NotFound. */
  method RemoveCartItem(db: Store, userId: Id, itemId: Id) returns (r: Result<()>)
    requires db.Valid() && db.TotalsHold()
    modifies db
    ensures db.Valid() && db.TotalsHold()
    ensures old(db.LinesUnique()) ==> db.LinesUnique()
    ensures !OwnedLine(old(db.carts), old(db.cartItems), userId, itemId) ==>
      r == Err(NotFound("Cart item not found")) && db.carts == old(db.carts) && db.cartItems == old(db.cartItems)
    ensures OwnedLine(old(db.carts), old(db.cartItems), userId, itemId) ==>
      var cid := old(db.cartItems)[itemId].cartId;
      && r == Ok(())
      && db.cartItems == old(db.cartItems) - {itemId}
      && db.carts == old(db.carts)[cid := old(db.carts)[cid].(totalAmount := db.LineTotal(cid))]
    ensures unchanged(db`users, db`otps, db`products, db`variants, db`orders, db`nextId)
    ensures unchanged(db`orderItems, db`payments, db`paymentJobs, db`notificationJobs, db`orderSeq, db`skuSeq)
  {
    if !OwnedLine(db.carts, db.cartItems, userId, itemId) {
      return Err(NotFound("Cart item not found"));
    }
    var cid := db.cartItems[itemId].cartId;
    ghost var items := db.cartItems;
    db.cartItems := db.cartItems - {itemId};
    if UniqueLines(items) {
      SubmapUnique(items, db.cartItems);
    }
    OtherTotalsKept(db.carts, items, db.cartItems, cid, db.nextId, db.nextId);
    UpdateCartTotal(db, cid);
    r := Ok(());
  }

  /** The line table with every line of one cart deleted. */
  function WithoutCart(items: map<Id, CartItem>, cartId: Id): (rest: map<Id, CartItem>)
    ensures forall k :: k in rest <==> k in items && items[k].cartId != cartId
    ensures forall k :: k in rest ==> rest[k] == items[k]
  {
    map k | k in items && items[k].cartId != cartId :: items[k]
  }

  /** Deletes every line of one cart; the other carts keep their totals. */
  method DropCartLines(db: Store, cartId: Id)
    requires db.Valid() && db.TotalsHold()
    modifies db
    ensures db.Valid()
    ensures forall c :: c in db.carts && c != cartId ==> db.carts[c].totalAmount == db.LineTotal(c)
    ensures db.LineTotal(cartId) == 0
    ensures old(db.LinesUnique()) ==> db.LinesUnique()
    ensures db.cartItems == WithoutCart(old(db.cartItems), cartId)
    ensures unchanged(db`users, db`otps, db`products, db`variants, db`carts, db`orders, db`nextId)
    ensures unchanged(db`orderItems, db`payments, db`paymentJobs, db`notificationJobs, db`orderSeq, db`skuSeq)
  {
    ghost var items := db.cartItems;
    db.cartItems := WithoutCart(db.cartItems, cartId);
    if UniqueLines(items) {
      SubmapUnique(items, db.cartItems);
    }
    OtherTotalsKept(db.carts, items, db.cartItems, cartId, db.nextId, db.nextId);
    CartSumNoLines(db.cartItems, cartId, db.nextId);
  }

  /** `cart.totalAmount = 0` on a cart that has no lines left. */
  method ZeroTotal(db: Store, cartId: Id)
    requires db.Valid() && cartId in db.carts && db.LineTotal(cartId) == 0
    requires forall c :: c in db.carts && c != cartId ==> db.carts[c].totalAmount == db.LineTotal(c)
    modifies db
    ensures db.Valid() && db.TotalsHold()
    ensures db.carts == old(db.carts)[cartId := old(db.carts)[cartId].(totalAmount := 0)]
    ensures unchanged(db`users, db`otps, db`products, db`variants, db`cartItems, db`orders, db`nextId)
    ensures unchanged(db`orderItems, db`payments, db`paymentJobs, db`notificationJobs, db`orderSeq, db`skuSeq)
  {
    db.carts := db.carts[cartId := db.carts[cartId].(totalAmount := 0)];
  }

  /** `clearCart`: deletes every line of the caller's active cart and sets
      its total to 0; NotFound when the caller has no active cart. */
  method ClearCart(db: Store, userId: Id) returns (r: Result<()>, ghost cartId: Id)
    requires db.Valid() && db.TotalsHold()
    modifies db
    ensures db.Valid() && db.TotalsHold()
    ensures old(db.LinesUnique()) ==> db.LinesUnique()
    ensures !HasActiveCart(old(db.carts), userId) ==>
      r == Err(NotFound("Cart not found")) && db.carts == old(db.carts) && db.cartItems == old(db.cartItems)
    ensures HasActiveCart(old(db.carts), userId) ==>
      && r == Ok(())
      && cartId in old(db.carts) && ActiveCartOf(old(db.carts)[cartId], userId)
      && db.carts == old(db.carts)[cartId := old(db.carts)[cartId].(totalAmount := 0)]
      && db.cartItems == WithoutCart(old(db.cartItems), cartId)
    ensures unchanged(db`users, db`otps, db`products, db`variants, db`orders, db`nextId)
    ensures unchanged(db`orderItems, db`payments, db`paymentJobs, db`notificationJobs, db`orderSeq, db`skuSeq)
  {
    var found := FindFirst(db.carts, db.nextId, (c: Cart) => ActiveCartOf(c, userId));
    if found.None? {
      return Err(NotFound("Cart not found")), 0;
    }
    var cid := found.value;
    cartId := cid;
    DropCartLines(db, cid);
    ZeroTotal(db, cid);
    r := Ok(());
  }
}
