/**
 * Checkout and the order queries. Checkout turns the caller's active cart
 * into an order (pending), one frozen order item per cart line, a pending
 * payment and a completed cart, all in one transaction; after the commit
 * it makes one best-effort request to the payment queue.
 *
 * The transaction is all-or-nothing for the tables. The order-number
 * sequence is not transactional: once a value has been drawn it stays
 * drawn even when the transaction rolls back.
 */
module CheckoutService {
  import opened Common
  import opened Entities
  import opened JobQueue
  import opened Db
  import opened CartService
  import Paginate

  // -----------------------------------------------------------------------
  // Order numbers

  const ORDER_PREFIX: string := "ORD-"
  const ORDER_DIGITS: nat := 8

  /** `'ORD-' || LPAD(n::text, 8, '0')`. */
  function OrderNumber(n: nat): (s: string)
    ensures |s| == |ORDER_PREFIX| + ORDER_DIGITS && s[..4] == ORDER_PREFIX
    ensures forall i :: 4 <= i < |s| ==> IsDigit(s[i])
  {
    ORDER_PREFIX + LeftPad(Decimal(n), ORDER_DIGITS, '0')
  }

  /** Below 10^8 the eight digits after the prefix read back as the sequence value. */
  lemma OrderNumberRoundTrip(n: nat)
    requires n < Pow10(ORDER_DIGITS)
    ensures DigitsValue(OrderNumber(n)[4..]) == n
  {
    PadRoundTrip(n, ORDER_DIGITS);
    assert OrderNumber(n)[4..] == LeftPad(Decimal(n), ORDER_DIGITS, '0');
  }

  /** Distinct sequence values below 10^8 give distinct order numbers. */
  lemma OrderNumberInjective(a: nat, b: nat)
    requires a < Pow10(ORDER_DIGITS) && b < Pow10(ORDER_DIGITS) && a != b
    ensures OrderNumber(a) != OrderNumber(b)
  {
    OrderNumberRoundTrip(a);
    OrderNumberRoundTrip(b);
  }

  /** LPAD cuts a longer text down to eight characters, so from 10^8 on a
      value gets the number of the value with its last digit dropped, e.g.
      100000000 and 10000000 both give "ORD-10000000". */
  lemma OrderNumberCollides(n: nat)
    requires n >= Pow10(ORDER_DIGITS)
    ensures OrderNumber(n) == OrderNumber(n / 10)
  {
    PadDropsLastDigit(n, ORDER_DIGITS);
  }

  // -----------------------------------------------------------------------
  // Snapshots

  /** Sum of the subtotals of a list of cart lines. */
  function SubtotalSum(lines: seq<CartItem>): int
  {
    if lines == [] then 0 else SubtotalSum(lines[..|lines| - 1]) + lines[|lines| - 1].subtotal
  }

  lemma SubtotalSumSnoc(lines: seq<CartItem>, line: CartItem)
    ensures SubtotalSum(lines + [line]) == SubtotalSum(lines) + line.subtotal
  {
    assert (lines + [line])[..|lines|] == lines;
  }

  /** Sum of the subtotals of a list of order items. */
  function OrderItemSum(items: seq<OrderItem>): int
  {
    if items == [] then 0 else OrderItemSum(items[..|items| - 1]) + items[|items| - 1].subtotal
  }

  /** The order item frozen from one cart line. */
  function Freeze(line: CartItem, orderId: Id): (item: OrderItem)
    ensures item.orderId == orderId && item.productId == line.productId && item.variantId == line.variantId
    ensures item.quantity == line.quantity && item.price == line.price && item.subtotal == line.subtotal
  {
    OrderItem(orderId, line.productId, line.variantId, line.quantity, line.price, line.subtotal)
  }

  /** `cart.CartItems.map(...)`: one order item per cart line, in order. */
  function Snapshot(lines: seq<CartItem>, orderId: Id): (items: seq<OrderItem>)
    ensures |items| == |lines|
    ensures forall i :: 0 <= i < |lines| ==> items[i] == Freeze(lines[i], orderId)
  {
    seq(|lines|, i requires 0 <= i < |lines| => Freeze(lines[i], orderId))
  }

  /** The frozen items add up to what the cart lines added up to. */
  lemma {:induction false} SnapshotTotal(lines: seq<CartItem>, orderId: Id)
    ensures OrderItemSum(Snapshot(lines, orderId)) == SubtotalSum(lines)
    decreases |lines|
  {
    if lines != [] {
      var init := lines[..|lines| - 1];
      assert Snapshot(lines, orderId)[..|lines| - 1] == Snapshot(init, orderId);
      SnapshotTotal(init, orderId);
    }
  }

  /** `ids`/`lines` are the lines of cart `cartId`, each once, by ascending id. */
  ghost predicate AreCartLines(items: map<Id, CartItem>, cartId: Id, ids: seq<Id>, lines: seq<CartItem>)
  {
    && |ids| == |lines|
    && (forall i :: 0 <= i < |ids| ==> ids[i] in items && items[ids[i]].cartId == cartId && lines[i] == items[ids[i]])
    && (forall i, j :: 0 <= i < j < |ids| ==> ids[i] < ids[j])
    && (forall k :: k in items && items[k].cartId == cartId ==> k in ids)
  }

  /** The ids of the lines of `cartId` below `n`, ascending. */
  function LineIds(items: map<Id, CartItem>, cartId: Id, n: nat): seq<Id>
  {
    if n == 0 then []
    else LineIds(items, cartId, n - 1) + (if n - 1 in items && items[n - 1].cartId == cartId then [n - 1] else [])
  }

  /** The lines of `cartId` below `n`, by ascending id. */
  function LinesBelow(items: map<Id, CartItem>, cartId: Id, n: nat): seq<CartItem>
  {
    if n == 0 then []
    else LinesBelow(items, cartId, n - 1) + (if n - 1 in items && items[n - 1].cartId == cartId then [items[n - 1]] else [])
  }

  /** The listed lines are exactly the cart's lines below `n`, each once,
      in id order. */
  lemma {:induction false} LinesBelowListed(items: map<Id, CartItem>, cartId: Id, n: nat)
    ensures var ids, lines := LineIds(items, cartId, n), LinesBelow(items, cartId, n);
      && |ids| == |lines|
      && (forall i :: 0 <= i < |ids| ==> ids[i] < n && ids[i] in items && items[ids[i]].cartId == cartId && lines[i] == items[ids[i]])
      && (forall i, j :: 0 <= i < j < |ids| ==> ids[i] < ids[j])
      && (forall k :: k in items && items[k].cartId == cartId && k < n ==> k in ids)
  {
    if n > 0 {
      LinesBelowListed(items, cartId, n - 1);
    }
  }

  /** The listed lines add up to the cart's sum below `n`. */
  lemma {:induction false} LinesBelowSum(items: map<Id, CartItem>, cartId: Id, n: nat)
    ensures SubtotalSum(LinesBelow(items, cartId, n)) == CartSum(items, cartId, n)
  {
    if n > 0 {
      LinesBelowSum(items, cartId, n - 1);
      var prev := LinesBelow(items, cartId, n - 1);
      if n - 1 in items && items[n - 1].cartId == cartId {
        SubtotalSumSnoc(prev, items[n - 1]);
        assert LinesBelow(items, cartId, n) == prev + [items[n - 1]];
      } else {
        assert LinesBelow(items, cartId, n) == prev;
        assert Contribution(items, cartId, n - 1) == 0;
      }
    }
  }

  /** Loads a cart's lines, as the `CartItems` include does. */
  method CartLines(db: Store, cartId: Id) returns (ids: seq<Id>, lines: seq<CartItem>)
    requires db.IdsBelow()
    ensures ids == LineIds(db.cartItems, cartId, db.nextId) && lines == LinesBelow(db.cartItems, cartId, db.nextId)
    ensures AreCartLines(db.cartItems, cartId, ids, lines)
    ensures SubtotalSum(lines) == db.LineTotal(cartId)
  {
    var items, n := db.cartItems, db.nextId;
    ids, lines := [], [];
    var k := 0;
    while k < n
      invariant k <= n
      invariant ids == LineIds(items, cartId, k) && lines == LinesBelow(items, cartId, k)
    {
      if k in items && items[k].cartId == cartId {
        ids, lines := ids + [k], lines + [items[k]];
      }
      k := k + 1;
    }
    LinesBelowListed(items, cartId, n);
    LinesBelowSum(items, cartId, n);
  }

  // -----------------------------------------------------------------------
  // Checkout

  /** The writes of the checkout transaction, in order. A fault at a step
      aborts the transaction there. */
  datatype TxStep = DrawNumber | InsertOrder | InsertItems | InsertPayment | SaveCart

  /** What the checkout response exposes of the payment. */
  datatype PaymentView = PaymentView(id: Id, status: PaymentStatus, paymentMethod: PaymentMethod)

  datatype CheckoutView = CheckoutView(orderId: Id, order: Order, payment: PaymentView)

  const PROCESS_PAYMENT: string := "process-payment"

  /** The order checkout creates for a cart. */
  function NewOrder(userId: Id, cartId: Id, cart: Cart, seqValue: nat, shippingAddress: Option<Address>): (o: Order)
    ensures o.status == OrderPending && o.paymentStatus == PayPending
    ensures o.userId == userId && o.cartId == cartId && o.totalAmount == cart.totalAmount
    ensures o.orderNumber == OrderNumber(seqValue) && o.shippingAddress == shippingAddress
  {
    Order(userId, cartId, OrderNumber(seqValue), OrderPending, cart.totalAmount, shippingAddress, PayPending)
  }

  /** The unique index on `orderNumber` rejects a number already in use. */
  predicate NumberTaken(orders: map<Id, Order>, number: string)
    ensures NumberTaken(orders, number) <==> number in set k | k in orders :: orders[k].orderNumber
    ensures orders == map[] ==> !NumberTaken(orders, number)
  {
    exists k :: k in orders && orders[k].orderNumber == number
  }

  /** `Order.create`: the order row at the next id, numbered from the
      sequence value just drawn. */
  method InsertOrder(db: Store, order: Order) returns (orderId: Id)
    requires db.Valid() && db.TotalsHold()
    modifies db
    ensures db.Valid() && db.TotalsHold()
    ensures orderId == old(db.nextId) && db.nextId == orderId + 1
    ensures db.orders == old(db.orders)[orderId := order]
    ensures unchanged(db`users, db`otps, db`products, db`variants, db`carts, db`cartItems)
    ensures unchanged(db`orderItems, db`payments, db`paymentJobs, db`notificationJobs, db`orderSeq, db`skuSeq)
  {
    orderId := db.nextId;
    TotalsKeptBeyond(db.carts, db.cartItems, orderId, orderId + 1);
    db.orders := db.orders[orderId := order];
    db.nextId := orderId + 1;
  }

  /** `OrderItem.bulkCreate`: the rows at the next ids, in order. */
  method InsertOrderItems(db: Store, rows: seq<OrderItem>)
    requires db.Valid() && db.TotalsHold()
    modifies db
    ensures db.Valid() && db.TotalsHold()
    ensures db.orderItems == InsertRows(old(db.orderItems), old(db.nextId), rows)
    ensures db.nextId == old(db.nextId) + |rows|
    ensures unchanged(db`users, db`otps, db`products, db`variants, db`carts, db`cartItems)
    ensures unchanged(db`orders, db`payments, db`paymentJobs, db`notificationJobs, db`orderSeq, db`skuSeq)
  {
    var start := db.nextId;
    TotalsKeptBeyond(db.carts, db.cartItems, start, start + |rows|);
    db.orderItems := InsertRows(db.orderItems, start, rows);
    db.nextId := start + |rows|;
  }

  /** `Payment.create`: the payment row at the next id. */
  method InsertPayment(db: Store, payment: Payment) returns (paymentId: Id)
    requires db.Valid() && db.TotalsHold()
    modifies db
    ensures db.Valid() && db.TotalsHold()
    ensures paymentId == old(db.nextId) && db.nextId == paymentId + 1
    ensures db.payments == old(db.payments)[paymentId := payment]
    ensures unchanged(db`users, db`otps, db`products, db`variants, db`carts, db`cartItems)
    ensures unchanged(db`orders, db`orderItems, db`paymentJobs, db`notificationJobs, db`orderSeq, db`skuSeq)
  {
    paymentId := db.nextId;
    TotalsKeptBeyond(db.carts, db.cartItems, paymentId, paymentId + 1);
    db.payments := db.payments[paymentId := payment];
    db.nextId := paymentId + 1;
  }

  /** The order row at the next id and its frozen items at the ids after it. */
  method InsertOrderWithItems(db: Store, order: Order, lines: seq<CartItem>) returns (orderId: Id)
    requires db.Valid() && db.TotalsHold()
    modifies db
    ensures db.Valid() && db.TotalsHold()
    ensures orderId == old(db.nextId) && db.nextId == orderId + 1 + |lines|
    ensures db.orders == old(db.orders)[orderId := order]
    ensures db.orderItems == InsertRows(old(db.orderItems), orderId + 1, Snapshot(lines, orderId))
    ensures unchanged(db`users, db`otps, db`products, db`variants, db`carts, db`cartItems)
    ensures unchanged(db`payments, db`paymentJobs, db`notificationJobs, db`orderSeq, db`skuSeq)
  {
    orderId := InsertOrder(db, order);
    InsertOrderItems(db, Snapshot(lines, orderId));
  }

  /** The inserts of the transaction: the order at the next id, the frozen
      items at the ids after it, and the payment after those. */
  method InsertOrderRows(db: Store, userId: Id, cartId: Id, lines: seq<CartItem>,
                         paymentMethod: PaymentMethod, shippingAddress: Option<Address>)
    returns (view: CheckoutView)
    requires db.Valid() && db.TotalsHold() && cartId in db.carts
    modifies db
    ensures db.Valid() && db.TotalsHold()
    ensures var o := old(db.nextId);
      var order := NewOrder(userId, cartId, old(db.carts)[cartId], old(db.orderSeq) + 1, shippingAddress);
      && view == CheckoutView(o, order, PaymentView(o + |lines| + 1, PayPending, paymentMethod))
      && db.orders == old(db.orders)[o := order]
      && db.orderItems == InsertRows(old(db.orderItems), o + 1, Snapshot(lines, o))
      && db.payments == old(db.payments)[o + |lines| + 1 := Payment(o, userId, order.totalAmount, paymentMethod, PayPending, None)]
      && db.nextId == o + |lines| + 2
      && db.orderSeq == old(db.orderSeq) + 1
    ensures unchanged(db`users, db`otps, db`products, db`variants, db`carts, db`cartItems)
    ensures unchanged(db`paymentJobs, db`notificationJobs, db`skuSeq)
  {
    db.orderSeq := db.orderSeq + 1;
    var order := NewOrder(userId, cartId, db.carts[cartId], db.orderSeq, shippingAddress);
    var o := InsertOrderWithItems(db, order, lines);
    var p := InsertPayment(db, Payment(o, userId, order.totalAmount, paymentMethod, PayPending, None));
    view := CheckoutView(o, order, PaymentView(p, PayPending, paymentMethod));
  }

  /** `cart.status = 'completed'`. */
  method CompleteCart(db: Store, cartId: Id)
    requires db.Valid() && db.TotalsHold() && cartId in db.carts
    modifies db
    ensures db.Valid() && db.TotalsHold()
    ensures db.carts == old(db.carts)[cartId := old(db.carts)[cartId].(status := CartCompleted)]
    ensures unchanged(db`users, db`otps, db`products, db`variants, db`cartItems, db`orders, db`nextId)
    ensures unchanged(db`orderItems, db`payments, db`paymentJobs, db`notificationJobs, db`orderSeq, db`skuSeq)
  {
    db.carts := db.carts[cartId := db.carts[cartId].(status := CartCompleted)];
  }

  /** The committed transaction: the inserts, then the cart completed. */
  method Commit(db: Store, userId: Id, cartId: Id, lines: seq<CartItem>,
                paymentMethod: PaymentMethod, shippingAddress: Option<Address>)
    returns (view: CheckoutView)
    requires db.Valid() && db.TotalsHold()
    requires cartId in db.carts && ActiveCartOf(db.carts[cartId], userId)
    modifies db
    ensures db.Valid() && db.TotalsHold()
    ensures var o := old(db.nextId);
      var order := NewOrder(userId, cartId, old(db.carts)[cartId], old(db.orderSeq) + 1, shippingAddress);
      && view == CheckoutView(o, order, PaymentView(o + |lines| + 1, PayPending, paymentMethod))
      && db.orders == old(db.orders)[o := order]
      && db.orderItems == InsertRows(old(db.orderItems), o + 1, Snapshot(lines, o))
      && db.payments == old(db.payments)[o + |lines| + 1 := Payment(o, userId, order.totalAmount, paymentMethod, PayPending, None)]
      && db.carts == old(db.carts)[cartId := old(db.carts)[cartId].(status := CartCompleted)]
      && db.nextId == o + |lines| + 2
      && db.orderSeq == old(db.orderSeq) + 1
    ensures unchanged(db`users, db`otps, db`products, db`variants, db`cartItems)
    ensures unchanged(db`paymentJobs, db`notificationJobs, db`skuSeq)
  {
    view := InsertOrderRows(db, userId, cartId, lines, paymentMethod, shippingAddress);
    CompleteCart(db, cartId);
  }

  /** The cart checkout works on: the caller's active cart, if any, with
      its lines, whose subtotals add up to the cart's stored total. */
  method LoadActiveCart(db: Store, userId: Id) returns (found: Option<Id>, ids: seq<Id>, lines: seq<CartItem>)
    requires db.Valid() && db.TotalsHold()
    ensures found.None? <==> !HasActiveCart(db.carts, userId)
    ensures found.Some? ==>
      && found.value in db.carts && ActiveCartOf(db.carts[found.value], userId)
      && AreCartLines(db.cartItems, found.value, ids, lines)
      && SubtotalSum(lines) == db.carts[found.value].totalAmount
  {
    ids, lines := [], [];
    found := FindFirst(db.carts, db.nextId, (c: Cart) => ActiveCartOf(c, userId));
    if found.Some? {
      ids, lines := CartLines(db, found.value);
    }
  }

  /** The job checkout asks the payment queue for. */
  function PaymentJob(view: CheckoutView, paymentMethod: PaymentMethod): (job: Job)
    ensures job.queue == PaymentProcessing && job.name == PROCESS_PAYMENT
    ensures job.data == PaymentData(view.payment.id, view.orderId, paymentMethod, view.order.totalAmount)
    ensures job.priority == Some(PRIORITY_HIGH)
  {
    var options: JobOptions := map["priority" := Some(PRIORITY_HIGH)];
    var data := PaymentData(view.payment.id, view.orderId, paymentMethod, view.order.totalAmount);
    AddJob([], PaymentProcessing, PROCESS_PAYMENT, data, options, true).value[0]
  }

  /** The post-commit enqueue: best effort, a failure is logged and swallowed. */
  method EnqueuePayment(db: Store, view: CheckoutView, paymentMethod: PaymentMethod, brokerUp: bool)
    requires db.Valid() && db.TotalsHold()
    modifies db
    ensures db.Valid() && db.TotalsHold()
    ensures db.paymentJobs == if brokerUp then old(db.paymentJobs) + [PaymentJob(view, paymentMethod)] else old(db.paymentJobs)
    ensures unchanged(db`users, db`otps, db`products, db`variants, db`carts, db`cartItems, db`nextId)
    ensures unchanged(db`orders, db`orderItems, db`payments, db`notificationJobs, db`orderSeq, db`skuSeq)
  {
    var options: JobOptions := map["priority" := Some(PRIORITY_HIGH)];
    var data := PaymentData(view.payment.id, view.orderId, paymentMethod, view.order.totalAmount);
    var queued := AddJob(db.paymentJobs, PaymentProcessing, PROCESS_PAYMENT, data, options, brokerUp);
    if queued.Ok? {
      db.paymentJobs := queued.value;
    }
  }

  /** The transaction and the enqueue after it, for a cart already found
      and not empty. `fault` is the step at which the transaction fails,
      if any (a clash on the order number's unique index fails the order
      insert as well); `brokerUp` says whether the payment queue accepts
      the follow-up job. */
  method PlaceOrder(db: Store, userId: Id, cartId: Id, lines: seq<CartItem>,
                    paymentMethod: PaymentMethod, shippingAddress: Option<Address>,
                    fault: Option<TxStep>, brokerUp: bool)
    returns (r: Result<CheckoutView>)
    requires db.Valid() && db.TotalsHold()
    requires cartId in db.carts && ActiveCartOf(db.carts[cartId], userId)
    modifies db
    ensures db.Valid() && db.TotalsHold()
    ensures r.Ok? <==> fault.None? && !NumberTaken(old(db.orders), OrderNumber(old(db.orderSeq) + 1))
    // a failed transaction writes nothing, but a drawn sequence value stays drawn
    ensures !r.Ok? ==>
      && r == Err(ServerError("Internal server error"))
      && db.orderSeq == (if fault == Some(DrawNumber) then old(db.orderSeq) else old(db.orderSeq) + 1)
      && unchanged(db`users, db`otps, db`products, db`variants, db`carts, db`cartItems, db`nextId)
      && unchanged(db`orders, db`orderItems, db`payments, db`paymentJobs, db`notificationJobs, db`skuSeq)
    ensures r.Ok? ==>
      var o := old(db.nextId);
      var order := NewOrder(userId, cartId, old(db.carts)[cartId], old(db.orderSeq) + 1, shippingAddress);
      var paymentId := o + |lines| + 1;
      && r.value == CheckoutView(o, order, PaymentView(paymentId, PayPending, paymentMethod))
      && db.orders == old(db.orders)[o := order]
      && db.orderItems == InsertRows(old(db.orderItems), o + 1, Snapshot(lines, o))
      && db.payments == old(db.payments)[paymentId := Payment(o, userId, order.totalAmount, paymentMethod, PayPending, None)]
      && db.carts == old(db.carts)[cartId := old(db.carts)[cartId].(status := CartCompleted)]
      && db.orderSeq == old(db.orderSeq) + 1
      && db.paymentJobs == (if brokerUp then old(db.paymentJobs) + [PaymentJob(r.value, paymentMethod)]
                            else old(db.paymentJobs))
      && unchanged(db`users, db`otps, db`products, db`variants, db`cartItems, db`notificationJobs, db`skuSeq)
  {
    if fault == Some(DrawNumber) {
      return Err(ServerError("Internal server error"));
    }
    // nextval() takes effect outside the transaction
    if fault.Some? || NumberTaken(db.orders, OrderNumber(db.orderSeq + 1)) {
      db.orderSeq := db.orderSeq + 1;
      return Err(ServerError("Internal server error"));
    }
    var view := Commit(db, userId, cartId, lines, paymentMethod, shippingAddress);
    EnqueuePayment(db, view, paymentMethod, brokerUp);
    r := Ok(view);
  }

  /** `checkout`: the caller's active cart, refused when missing or empty,
      then the order placed from its lines. */
  method Checkout(db: Store, userId: Id, paymentMethod: PaymentMethod, shippingAddress: Option<Address>,
                  fault: Option<TxStep>, brokerUp: bool)
    returns (r: Result<CheckoutView>, cartId: Id, ids: seq<Id>, lines: seq<CartItem>)
    requires db.Valid() && db.TotalsHold()
    modifies db
    ensures db.Valid() && db.TotalsHold()
    ensures HasActiveCart(old(db.carts), userId) ==>
      && cartId in old(db.carts) && ActiveCartOf(old(db.carts)[cartId], userId)
      && AreCartLines(old(db.cartItems), cartId, ids, lines)
      && SubtotalSum(lines) == old(db.carts)[cartId].totalAmount
    // nothing is written when there is no cart or it is empty
    ensures !HasActiveCart(old(db.carts), userId) ==> r == Err(NotFound("Cart not found")) && unchanged(db)
    ensures HasActiveCart(old(db.carts), userId) && lines == [] ==> r == Err(BadRequest("Cart is empty")) && unchanged(db)
    ensures r.Ok? ==> HasActiveCart(old(db.carts), userId) && lines != []
    // a non-empty cart is placed as an order exactly as `PlaceOrder` states
    ensures HasActiveCart(old(db.carts), userId) && lines != [] ==>
      (r.Ok? <==> fault.None? && !NumberTaken(old(db.orders), OrderNumber(old(db.orderSeq) + 1)))
    ensures HasActiveCart(old(db.carts), userId) && lines != [] && !r.Ok? ==>
      && r == Err(ServerError("Internal server error"))
      && db.orderSeq == (if fault == Some(DrawNumber) then old(db.orderSeq) else old(db.orderSeq) + 1)
      && unchanged(db`users, db`otps, db`products, db`variants, db`carts, db`cartItems, db`nextId)
      && unchanged(db`orders, db`orderItems, db`payments, db`paymentJobs, db`notificationJobs, db`skuSeq)
    ensures r.Ok? ==>
      var o := old(db.nextId);
      var order := NewOrder(userId, cartId, old(db.carts)[cartId], old(db.orderSeq) + 1, shippingAddress);
      var paymentId := o + |lines| + 1;
      && r.value == CheckoutView(o, order, PaymentView(paymentId, PayPending, paymentMethod))
      && db.orders == old(db.orders)[o := order]
      && db.orderItems == InsertRows(old(db.orderItems), o + 1, Snapshot(lines, o))
      && db.payments == old(db.payments)[paymentId := Payment(o, userId, order.totalAmount, paymentMethod, PayPending, None)]
      && db.carts == old(db.carts)[cartId := old(db.carts)[cartId].(status := CartCompleted)]
      && db.orderSeq == old(db.orderSeq) + 1
      && db.paymentJobs == (if brokerUp then old(db.paymentJobs) + [PaymentJob(r.value, paymentMethod)]
                            else old(db.paymentJobs))
      && unchanged(db`users, db`otps, db`products, db`variants, db`cartItems, db`notificationJobs, db`skuSeq)
  {
    var found;
    found, ids, lines := LoadActiveCart(db, userId);
    if found.None? {
      return Err(NotFound("Cart not found")), 0, ids, lines;
    }
    cartId := found.value;
    if lines == [] {
      return Err(BadRequest("Cart is empty")), cartId, ids, lines;
    }
    r := PlaceOrder(db, userId, cartId, lines, paymentMethod, shippingAddress, fault, brokerUp);
  }

  // -----------------------------------------------------------------------
  // Queries

  datatype OrderDetail = OrderDetail(
    id: Id, order: Order, items: map<Id, OrderItem>, payments: map<Id, Payment>)

  /** `getOrder`: the order only when both its id and its owner match, with
      its items and payments. */
  function GetOrder(orders: map<Id, Order>, orderItems: map<Id, OrderItem>, payments: map<Id, Payment>,
                    userId: Id, orderId: Id): (r: Result<OrderDetail>)
    ensures r.Ok? <==> orderId in orders && orders[orderId].userId == userId
    ensures r.Err? ==> r == Err(NotFound("Order not found"))
    ensures r.Ok? ==> r.value.id == orderId && r.value.order == orders[orderId]
    ensures r.Ok? ==> forall k :: k in r.value.items <==> k in orderItems && orderItems[k].orderId == orderId
    ensures r.Ok? ==> forall k :: k in r.value.items ==> r.value.items[k] == orderItems[k]
    ensures r.Ok? ==> forall k :: k in r.value.payments <==> k in payments && payments[k].orderId == orderId
    ensures r.Ok? ==> forall k :: k in r.value.payments ==> r.value.payments[k] == payments[k]
  {
    if orderId in orders && orders[orderId].userId == userId then
      Ok(OrderDetail(orderId, orders[orderId],
                     map k | k in orderItems && orderItems[k].orderId == orderId :: orderItems[k],
                     map k | k in payments && payments[k].orderId == orderId :: payments[k]))
    else
      Err(NotFound("Order not found"))
  }

  /** The ids below `n` of the user's orders, newest (largest id) first. */
  function UserOrderIds(orders: map<Id, Order>, userId: Id, n: nat): (ids: seq<Id>)
    ensures forall i :: 0 <= i < |ids| ==> ids[i] < n && ids[i] in orders && orders[ids[i]].userId == userId
    ensures forall i, j :: 0 <= i < j < |ids| ==> ids[i] > ids[j]
    ensures forall k :: k in orders && orders[k].userId == userId && k < n ==> k in ids
  {
    if n == 0 then []
    else if n - 1 in orders && orders[n - 1].userId == userId then [n - 1] + UserOrderIds(orders, userId, n - 1)
    else UserOrderIds(orders, userId, n - 1)
  }

  /** The user's orders below `bound` with their rows, newest first. */
  function UserOrders(orders: map<Id, Order>, userId: Id, bound: nat): (all: seq<(Id, Order)>)
    requires forall k :: k in orders ==> k < bound
    ensures |all| == |UserOrderIds(orders, userId, bound)|
    ensures forall i :: 0 <= i < |all| ==>
              all[i].0 == UserOrderIds(orders, userId, bound)[i] && all[i].1 == orders[all[i].0]
  {
    var ids := UserOrderIds(orders, userId, bound);
    seq(|ids|, i requires 0 <= i < |ids| => (ids[i], orders[ids[i]]))
  }

  /** The ids of one order's items. */
  function ItemIds(orderItems: map<Id, OrderItem>, orderId: Id): (ks: set<Id>)
    ensures forall k :: k in ks <==> k in orderItems && orderItems[k].orderId == orderId
  {
    set k | k in orderItems && orderItems[k].orderId == orderId
  }

  /** The number of items of one order. */
  function ItemCount(orderItems: map<Id, OrderItem>, orderId: Id): nat
  {
    |ItemIds(orderItems, orderId)|
  }

  /** The rows of the outer join of some orders with their items: one per
      item, and one for an order without items. */
  function JoinedRows(orderItems: map<Id, OrderItem>, ids: seq<Id>): (n: nat)
    ensures n >= |ids|
  {
    if ids == [] then 0 else Max(1, ItemCount(orderItems, ids[0])) + JoinedRows(orderItems, ids[1..])
  }

  /** The joined rows number the orders exactly when no order has two or
      more items. */
  lemma {:induction false} JoinedRowsAreOrdersIff(orderItems: map<Id, OrderItem>, ids: seq<Id>)
    ensures JoinedRows(orderItems, ids) == |ids| <==> forall i :: 0 <= i < |ids| ==> ItemCount(orderItems, ids[i]) <= 1
  {
    if ids != [] {
      JoinedRowsAreOrdersIff(orderItems, ids[1..]);
      assert forall i :: 1 <= i < |ids| ==> ids[i] == ids[1..][i - 1];
    }
  }

  /** One page of the user's orders, newest first, as the plain pagination
      middleware windowed it, reported with `count` as the total and the
      page arithmetic taken from the raw query values. */
  function UserOrdersPage(orders: map<Id, Order>, bound: nat, userId: Id, page: Option<int>, limit: Option<int>, count: nat)
    : (r: Result<(seq<(Id, Order)>, Paginate.PageInfoJs)>)
    requires forall k :: k in orders ==> k < bound
    ensures r.Err? <==> Paginate.PaginateJs(page, limit).limit < 0 || Paginate.PaginateJs(page, limit).offset < 0
    ensures r.Ok? ==> Paginate.Slice(UserOrders(orders, userId, bound), Paginate.PaginateJs(page, limit)) == Ok(r.value.0)
    ensures r.Ok? ==> forall i :: 0 <= i < |r.value.0| ==>
              r.value.0[i].0 in orders && orders[r.value.0[i].0] == r.value.0[i].1 && r.value.0[i].1.userId == userId
    ensures r.Ok? ==> forall i, j :: 0 <= i < j < |r.value.0| ==> r.value.0[i].0 > r.value.0[j].0
    ensures r.Ok? ==> r.value.1.total == count
    ensures r.Ok? ==> r.value.1.page == page.GetOr(Paginate.DEFAULT_PAGE) && r.value.1.limit == limit.GetOr(Paginate.DEFAULT_LIMIT)
    ensures r.Ok? ==> r.value.1.totalPages == Paginate.TotalPages(count, r.value.1.limit)
  {
    var all := UserOrders(orders, userId, bound);
    match Paginate.Slice(all, Paginate.PaginateJs(page, limit))
    case Err(e) => Err(e)
    case Ok(rows) =>
      var w := Paginate.PaginateJs(page, limit);
      assert forall i :: 0 <= i < |rows| ==> rows[i] == all[w.offset + i];
      Ok(Paginate.PaginatedResponseJs(rows, count, page, limit))
  }

  /** `getUserOrders` as written: the count query joins each order with its
      items and counts the joined rows, not the orders. */
  function GetUserOrders(orders: map<Id, Order>, orderItems: map<Id, OrderItem>, bound: nat, userId: Id,
                         page: Option<int>, limit: Option<int>)
    : (r: Result<(seq<(Id, Order)>, Paginate.PageInfoJs)>)
    requires forall k :: k in orders ==> k < bound
    ensures r.Err? <==> Paginate.PaginateJs(page, limit).limit < 0 || Paginate.PaginateJs(page, limit).offset < 0
    ensures r.Ok? ==> Paginate.Slice(UserOrders(orders, userId, bound), Paginate.PaginateJs(page, limit)) == Ok(r.value.0)
    ensures r.Ok? ==> r.value.1.total == JoinedRows(orderItems, UserOrderIds(orders, userId, bound))
    ensures r.Ok? ==> r.value.1.total >= |UserOrderIds(orders, userId, bound)|
  {
    UserOrdersPage(orders, bound, userId, page, limit, JoinedRows(orderItems, UserOrderIds(orders, userId, bound)))
  }

  /** A single order with two items is reported as a total of two. */
  lemma TwoItemOrderCountsTwice(o: Order, a: OrderItem, b: OrderItem)
    requires a.orderId == 0 && b.orderId == 0
    ensures var r := GetUserOrders(map[0 := o], map[1 := a, 2 := b], 1, o.userId, None, None);
            && r.Ok? && r.value.0 == [(0, o)]
            && r.value.1.total == 2
  {
    var items := map[1 := a, 2 := b];
    assert ItemIds(items, 0) == {1, 2};
    assert UserOrderIds(map[0 := o], o.userId, 1) == [0];
    assert JoinedRows(items, [0]) == 2 + JoinedRows(items, []);
  }

  /** `getUserOrders` with the count taken over distinct orders. */
  function GetUserOrdersDistinct(orders: map<Id, Order>, bound: nat, userId: Id, page: Option<int>, limit: Option<int>)
    : (r: Result<(seq<(Id, Order)>, Paginate.PageInfoJs)>)
    requires forall k :: k in orders ==> k < bound
    ensures r.Err? <==> Paginate.PaginateJs(page, limit).limit < 0 || Paginate.PaginateJs(page, limit).offset < 0
    ensures r.Ok? ==> Paginate.Slice(UserOrders(orders, userId, bound), Paginate.PaginateJs(page, limit)) == Ok(r.value.0)
    ensures r.Ok? ==> r.value.1.total == |set k | k in orders && orders[k].userId == userId|
  {
    var ids := UserOrderIds(orders, userId, bound);
    UserIdsCountOrders(orders, userId, bound);
    UserOrdersPage(orders, bound, userId, page, limit, |ids|)
  }

  /** The listed ids are the user's orders, each once. */
  lemma UserIdsCountOrders(orders: map<Id, Order>, userId: Id, bound: nat)
    requires forall k :: k in orders ==> k < bound
    ensures |UserOrderIds(orders, userId, bound)| == |set k | k in orders && orders[k].userId == userId|
  {
    var ids := UserOrderIds(orders, userId, bound);
    var s := set k | k in orders && orders[k].userId == userId;
    assert s == set i | 0 <= i < |ids| :: ids[i];
    DistinctCard(ids);
  }

  lemma {:induction false} DistinctCard(ids: seq<Id>)
    requires forall i, j :: 0 <= i < j < |ids| ==> ids[i] > ids[j]
    ensures |set i | 0 <= i < |ids| :: ids[i]| == |ids|
  {
    if ids != [] {
      DistinctCard(ids[1..]);
      var rest := set i | 0 <= i < |ids[1..]| :: ids[1..][i];
      assert (set i | 0 <= i < |ids| :: ids[i]) == {ids[0]} + rest;
      assert ids[0] !in rest;
    }
  }

  /** The two counts agree exactly when none of the user's orders has two
      or more items. */
  lemma CountsAgreeIffNoMultiItemOrder(orders: map<Id, Order>, orderItems: map<Id, OrderItem>, bound: nat,
                                       userId: Id, page: Option<int>, limit: Option<int>)
    requires forall k :: k in orders ==> k < bound
    requires GetUserOrders(orders, orderItems, bound, userId, page, limit).Ok?
    ensures GetUserOrdersDistinct(orders, bound, userId, page, limit).Ok?
    ensures GetUserOrders(orders, orderItems, bound, userId, page, limit).value.1.total
            == GetUserOrdersDistinct(orders, bound, userId, page, limit).value.1.total
            <==> forall k :: k in orders && orders[k].userId == userId ==> ItemCount(orderItems, k) <= 1
  {
    var ids := UserOrderIds(orders, userId, bound);
    JoinedRowsAreOrdersIff(orderItems, ids);
    UserIdsCountOrders(orders, userId, bound);
    forall k | k in orders && orders[k].userId == userId
      ensures exists i :: 0 <= i < |ids| && ids[i] == k
    {
      assert k in ids;
    }
  }
}
