/**
 * The product and variant services over the store: create, update and
 * delete rows, with the effects of the foreign keys on delete. Deleting a
 * product also deletes its variants and the cart lines that hold it
 * (`ON DELETE CASCADE`); deleting a variant sets `variantId` to NULL on the
 * cart lines that hold it (`ON DELETE SET NULL`).
 */
module CatalogService {
  import opened Common
  import opened Entities
  import opened Db
  import opened Catalog
  import CartService

  /** `createProduct`: a new row at the next id, or the validation error
      with nothing written. */
  method CreateProduct(db: Store, input: ProductInput) returns (r: Result<Id>)
    requires db.Valid() && db.TotalsHold()
    modifies db
    ensures db.Valid() && db.TotalsHold()
    ensures NewProduct(input).Err? ==> r == Err(NewProduct(input).error) && unchanged(db)
    ensures NewProduct(input).Ok? ==>
      && r == Ok(old(db.nextId)) && db.nextId == old(db.nextId) + 1
      && db.products == old(db.products)[old(db.nextId) := NewProduct(input).value]
    ensures unchanged(db`users, db`otps, db`variants, db`carts, db`cartItems, db`orders)
    ensures unchanged(db`orderItems, db`payments, db`paymentJobs, db`notificationJobs, db`orderSeq, db`skuSeq)
  {
    var p := NewProduct(input);
    if p.Err? {
      return Err(p.error);
    }
    TotalsKeptBeyond(db.carts, db.cartItems, db.nextId, db.nextId + 1);
    r := Ok(db.nextId);
    db.products := db.products[db.nextId := p.value];
    db.nextId := db.nextId + 1;
  }

  /** `updateProduct`: the body's fields are applied to the row and saved. */
  method UpdateProduct(db: Store, productId: Id, input: ProductInput) returns (r: Result<()>)
    requires db.Valid() && db.TotalsHold()
    modifies db
    ensures db.Valid() && db.TotalsHold()
    ensures productId !in old(db.products) ==> r == Err(NotFound(PRODUCT_NOT_FOUND)) && unchanged(db)
    ensures productId in old(db.products) ==>
      r == Ok(()) && db.products == old(db.products)[productId := UpdateProductFields(old(db.products)[productId], input)]
    ensures unchanged(db`users, db`otps, db`variants, db`carts, db`cartItems, db`orders, db`nextId)
    ensures unchanged(db`orderItems, db`payments, db`paymentJobs, db`notificationJobs, db`orderSeq, db`skuSeq)
  {
    if productId !in db.products {
      return Err(NotFound(PRODUCT_NOT_FOUND));
    }
    db.products := db.products[productId := UpdateProductFields(db.products[productId], input)];
    r := Ok(());
  }

  /** The variants left once a product's variants are cascaded away. */
  function RemainingVariants(variants: map<Id, Variant>, productId: Id): (rest: map<Id, Variant>)
    ensures forall k :: k in rest <==> k in variants && variants[k].productId != productId
    ensures forall k :: k in rest ==> rest[k] == variants[k]
  {
    map k | k in variants && variants[k].productId != productId :: variants[k]
  }

  /** Whether a line holds one of the product's variants. */
  predicate HoldsVariantOf(variants: map<Id, Variant>, line: CartItem, productId: Id)
  {
    line.variantId.Some? && line.variantId.value in variants && variants[line.variantId.value].productId == productId
  }

  /** The cart lines left once a product is deleted: its own lines are
      deleted, and a line holding one of its variants loses the variant. */
  function RemainingLines(items: map<Id, CartItem>, variants: map<Id, Variant>, productId: Id)
    : (rest: map<Id, CartItem>)
    ensures forall k :: k in rest <==> k in items && items[k].productId != productId
    ensures forall k :: k in rest ==>
      rest[k] == if HoldsVariantOf(variants, items[k], productId) then items[k].(variantId := None) else items[k]
  {
    map k | k in items && items[k].productId != productId ::
      if HoldsVariantOf(variants, items[k], productId) then items[k].(variantId := None) else items[k]
  }

  /** `deleteProduct` as written: the row is destroyed and the foreign keys
      cascade to variants and cart lines, but no cart total is touched. */
  method DeleteProductAsWritten(db: Store, productId: Id) returns (r: Result<()>)
    requires db.Valid()
    modifies db
    ensures db.Valid()
    ensures productId !in old(db.products) ==> r == Err(NotFound(PRODUCT_NOT_FOUND)) && unchanged(db)
    ensures productId in old(db.products) ==>
      && r == Ok(())
      && db.products == old(db.products) - {productId}
      && db.variants == RemainingVariants(old(db.variants), productId)
      && db.cartItems == RemainingLines(old(db.cartItems), old(db.variants), productId)
    ensures unchanged(db`users, db`otps, db`carts, db`orders, db`nextId)
    ensures unchanged(db`orderItems, db`payments, db`paymentJobs, db`notificationJobs, db`orderSeq, db`skuSeq)
  {
    if productId !in db.products {
      return Err(NotFound(PRODUCT_NOT_FOUND));
    }
    db.cartItems := RemainingLines(db.cartItems, db.variants, productId);
    db.variants := RemainingVariants(db.variants, productId);
    db.products := db.products - {productId};
    r := Ok(());
  }

  /** A cart with a line of product 2 (subtotal 500) and a line of
      product 4 (subtotal 300), whose total is their sum: once product 2
      is deleted as written the cart keeps the second line but still
      carries the total of 800, and since the cart is not empty checkout
      orders it at that total. */
  lemma StaleTotalAfterProductDelete()
    ensures var carts := map[0 := Cart(7, CartActive, 800)];
            var items := map[1 := CartItem(0, 2, None, 1, 500, 500), 3 := CartItem(0, 4, None, 1, 300, 300)];
            var after := RemainingLines(items, map[], 2);
            && carts[0].totalAmount == CartSum(items, 0, 4)
            && after == map[3 := items[3]]
            && CartSum(after, 0, 4) == 300 != carts[0].totalAmount
  {
    var items := map[1 := CartItem(0, 2, None, 1, 500, 500), 3 := CartItem(0, 4, None, 1, 300, 300)];
    assert CartSum(items, 0, 1) == 0;
    assert CartSum(items, 0, 2) == 500;
    assert CartSum(items, 0, 3) == 500;
    assert CartSum(items, 0, 4) == 800;
    var after := RemainingLines(items, map[], 2);
    assert after == map[3 := items[3]];
    assert CartSum(after, 0, 1) == 0;
    assert CartSum(after, 0, 2) == 0;
    assert CartSum(after, 0, 3) == 0;
  }

  /** Sets every cart's total to the sum of its lines, one cart at a time. */
  method RecomputeTotals(db: Store)
    requires db.Valid()
    modifies db
    ensures db.Valid() && db.TotalsHold()
    ensures db.carts.Keys == old(db.carts).Keys
    ensures forall c :: c in db.carts ==> db.carts[c] == old(db.carts)[c].(totalAmount := db.LineTotal(c))
    ensures unchanged(db`users, db`otps, db`products, db`variants, db`cartItems, db`orders, db`nextId)
    ensures unchanged(db`orderItems, db`payments, db`paymentJobs, db`notificationJobs, db`orderSeq, db`skuSeq)
  {
    ghost var carts0 := db.carts;
    var c := 0;
    while c < db.nextId
      invariant c <= db.nextId
      invariant db.carts.Keys == carts0.Keys
      invariant forall k :: k in db.carts && k < c ==> db.carts[k] == carts0[k].(totalAmount := db.LineTotal(k))
      invariant forall k :: k in db.carts && k >= c ==> db.carts[k] == carts0[k]
      invariant unchanged(db`users, db`otps, db`products, db`variants, db`cartItems, db`orders, db`nextId)
      invariant unchanged(db`orderItems, db`payments, db`paymentJobs, db`notificationJobs, db`orderSeq, db`skuSeq)
    {
      if c in db.carts {
        var total := CartService.ComputeCartTotal(db, c);
        db.carts := db.carts[c := db.carts[c].(totalAmount := total)];
      }
      c := c + 1;
    }
    assert forall k :: k in db.carts ==> db.carts[k].userId == carts0[k].userId && db.carts[k].status == carts0[k].status;
  }

  /** `deleteProduct` with the totals of the carts that lost lines brought
      back in line, so the cart-total invariant survives the cascade. */
  method DeleteProduct(db: Store, productId: Id) returns (r: Result<()>)
    requires db.Valid() && db.TotalsHold()
    modifies db
    ensures db.Valid() && db.TotalsHold()
    ensures productId !in old(db.products) ==> r == Err(NotFound(PRODUCT_NOT_FOUND)) && unchanged(db)
    ensures productId in old(db.products) ==>
      && r == Ok(())
      && db.products == old(db.products) - {productId}
      && db.variants == RemainingVariants(old(db.variants), productId)
      && db.cartItems == RemainingLines(old(db.cartItems), old(db.variants), productId)
      && db.carts.Keys == old(db.carts).Keys
      && forall c :: c in db.carts ==> db.carts[c] == old(db.carts)[c].(totalAmount := db.LineTotal(c))
    ensures unchanged(db`users, db`otps, db`orders, db`nextId)
    ensures unchanged(db`orderItems, db`payments, db`paymentJobs, db`notificationJobs, db`orderSeq, db`skuSeq)
  {
    r := DeleteProductAsWritten(db, productId);
    if r.Ok? {
      RecomputeTotals(db);
    }
  }

  /** `createVariant`: the product in the path must exist. A row that
      fails the NOT NULL checks is refused before the insert; otherwise the
      insert draws the next SKU sequence value, which stays drawn, and the
      unique index on `sku` refuses the row when that SKU is in use. */
  method CreateVariant(db: Store, productId: Id, input: VariantInput) returns (r: Result<Id>)
    requires db.Valid() && db.TotalsHold()
    modifies db
    ensures db.Valid() && db.TotalsHold()
    ensures productId !in old(db.products) ==> r == Err(NotFound(PRODUCT_NOT_FOUND)) && unchanged(db)
    ensures productId in old(db.products) && VariantViolations(input) != [] ==>
      r == Err(ServerError(ViolationMessage("productVariants", VariantViolations(input)))) && unchanged(db)
    ensures productId in old(db.products) && VariantViolations(input) == [] ==>
      var sku := Sku(old(db.skuSeq) + 1);
      && db.skuSeq == old(db.skuSeq) + 1
      && (r.Ok? <==> !SkuTaken(old(db.variants), sku))
      && (r.Err? ==> r == Err(ServerError(UNIQUE_VIOLATION)) && db.variants == old(db.variants) && db.nextId == old(db.nextId))
      && (r.Ok? ==>
           && r == Ok(old(db.nextId)) && db.nextId == old(db.nextId) + 1
           && db.variants == old(db.variants)[old(db.nextId) := NewVariant(productId, input, sku).value]
           && db.variants[old(db.nextId)].productId == productId)
    ensures unchanged(db`users, db`otps, db`products, db`carts, db`cartItems, db`orders)
    ensures unchanged(db`orderItems, db`payments, db`paymentJobs, db`notificationJobs, db`orderSeq)
  {
    if productId !in db.products {
      return Err(NotFound(PRODUCT_NOT_FOUND));
    }
    if VariantViolations(input) != [] {
      return Err(ServerError(ViolationMessage("productVariants", VariantViolations(input))));
    }
    // nextval() takes effect even when the insert is refused
    db.skuSeq := db.skuSeq + 1;
    var sku := Sku(db.skuSeq);
    if SkuTaken(db.variants, sku) {
      return Err(ServerError(UNIQUE_VIOLATION));
    }
    var v := NewVariant(productId, input, sku);
    TotalsKeptBeyond(db.carts, db.cartItems, db.nextId, db.nextId + 1);
    r := Ok(db.nextId);
    db.variants := db.variants[db.nextId := v.value];
    db.nextId := db.nextId + 1;
  }

  /** `updateVariant`: the body's fields are applied and saved; a save that
      fails writes nothing. */
  method UpdateVariant(db: Store, variantId: Id, input: VariantInput) returns (r: Result<()>)
    requires db.Valid() && db.TotalsHold()
    modifies db
    ensures db.Valid() && db.TotalsHold()
    ensures variantId !in old(db.variants) ==> r == Err(NotFound(VARIANT_NOT_FOUND)) && unchanged(db)
    ensures variantId in old(db.variants) && UpdateVariantFields(old(db.variants)[variantId], input).Err? ==>
      r == Err(UpdateVariantFields(old(db.variants)[variantId], input).error) && unchanged(db)
    ensures variantId in old(db.variants) && UpdateVariantFields(old(db.variants)[variantId], input).Ok? ==>
      r == Ok(()) && db.variants == old(db.variants)[variantId := UpdateVariantFields(old(db.variants)[variantId], input).value]
    ensures unchanged(db`users, db`otps, db`products, db`carts, db`cartItems, db`orders, db`nextId)
    ensures unchanged(db`orderItems, db`payments, db`paymentJobs, db`notificationJobs, db`orderSeq, db`skuSeq)
  {
    if variantId !in db.variants {
      return Err(NotFound(VARIANT_NOT_FOUND));
    }
    var v := UpdateVariantFields(db.variants[variantId], input);
    if v.Err? {
      return Err(v.error);
    }
    db.variants := db.variants[variantId := v.value];
    r := Ok(());
  }

  /** The cart lines once a variant is deleted: the lines holding it keep
      their product, quantity and subtotal but lose the variant. */
  function UnlinkVariant(items: map<Id, CartItem>, variantId: Id): (rest: map<Id, CartItem>)
    ensures rest.Keys == items.Keys
    ensures forall k :: k in rest ==>
      rest[k] == if items[k].variantId == Some(variantId) then items[k].(variantId := None) else items[k]
  {
    map k | k in items :: if items[k].variantId == Some(variantId) then items[k].(variantId := None) else items[k]
  }

  /** Unlinking a variant changes no cart's sum. */
  lemma {:induction false} UnlinkKeepsSums(items: map<Id, CartItem>, variantId: Id, cartId: Id, n: nat)
    ensures CartSum(UnlinkVariant(items, variantId), cartId, n) == CartSum(items, cartId, n)
  {
    var rest := UnlinkVariant(items, variantId);
    forall k | 0 <= k < n
      ensures Contribution(items, cartId, k) == Contribution(rest, cartId, k)
    {
    }
    CartSumAgree(items, rest, cartId, n);
  }

  /** Two lines of one product in one cart, one with variant 5 and one
      without: once variant 5 is deleted both lines have the same key, so
      the one-line-per-key rule the cart service keeps no longer holds. */
  lemma UnlinkCanDuplicateLines()
    ensures var items := map[1 := CartItem(0, 2, Some(5), 1, 100, 100), 3 := CartItem(0, 2, None, 2, 90, 180)];
            UniqueLines(items) && !UniqueLines(UnlinkVariant(items, 5))
  {
    var items := map[1 := CartItem(0, 2, Some(5), 1, 100, 100), 3 := CartItem(0, 2, None, 2, 90, 180)];
    var rest := UnlinkVariant(items, 5);
    assert SameLine(rest[1], rest[3]);
  }

  /** `deleteVariant`: the row is destroyed and the lines holding it lose
      the variant; cart totals are unaffected. */
  method DeleteVariant(db: Store, variantId: Id) returns (r: Result<()>)
    requires db.Valid() && db.TotalsHold()
    modifies db
    ensures db.Valid() && db.TotalsHold()
    ensures variantId !in old(db.variants) ==> r == Err(NotFound(VARIANT_NOT_FOUND)) && unchanged(db)
    ensures variantId in old(db.variants) ==>
      && r == Ok(())
      && db.variants == old(db.variants) - {variantId}
      && db.cartItems == UnlinkVariant(old(db.cartItems), variantId)
    ensures unchanged(db`users, db`otps, db`products, db`carts, db`orders, db`nextId)
    ensures unchanged(db`orderItems, db`payments, db`paymentJobs, db`notificationJobs, db`orderSeq, db`skuSeq)
  {
    if variantId !in db.variants {
      return Err(NotFound(VARIANT_NOT_FOUND));
    }
    forall c | c in db.carts
      ensures CartSum(UnlinkVariant(db.cartItems, variantId), c, db.nextId) == db.LineTotal(c)
    {
      UnlinkKeepsSums(db.cartItems, variantId, c, db.nextId);
    }
    db.cartItems := UnlinkVariant(db.cartItems, variantId);
    db.variants := db.variants - {variantId};
    r := Ok(());
  }
}
