/**
 * The payment worker's job handler: the payment and order status machine.
 * The gateway outcome, the clock and the random suffix of the transaction
 * id are parameters; whether the notification queue accepts the follow-up
 * job is a parameter as well.
 */
module PaymentWorker {
  import opened Common
  import opened Entities
  import opened JobQueue
  import opened Db

  const ORDER_CONFIRMATION: string := "order-confirmation"
  const PAYMENT_FAILED: string := "payment-failed"
  const FAILURE_REASON: string := "Payment gateway returned failure"
  const TXN_PREFIX: string := "TXN-"

  /** `TXN-<now>-<suffix>`: `now` is the clock in milliseconds, `suffix`
      the random base-36 characters. */
  function TransactionId(now: nat, suffix: string): (t: string)
    ensures |t| > |TXN_PREFIX| && t[..|TXN_PREFIX|] == TXN_PREFIX
    ensures t[|TXN_PREFIX|..] == Decimal(now) + "-" + suffix
  {
    TXN_PREFIX + Decimal(now) + "-" + suffix
  }

  /** The payment row once settled: `completed` with its transaction id,
      or `failed` with the id it had. Nothing else of the row changes. */
  function SettlePayment(p: Payment, success: bool, txn: string): (q: Payment)
    ensures q.status == (if success then PayCompleted else PayFailed)
    ensures q.transactionId == (if success then Some(txn) else p.transactionId)
    ensures q.orderId == p.orderId && q.userId == p.userId && q.amount == p.amount
    ensures q.paymentMethod == p.paymentMethod
  {
    if success then p.(status := PayCompleted, transactionId := Some(txn))
    else p.(status := PayFailed)
  }

  /** The order row once its payment settled: confirmed and paid, or only
      marked as failed in payment with its own status left as it was. */
  function SettleOrder(o: Order, success: bool): (o': Order)
    ensures o'.paymentStatus == (if success then PayCompleted else PayFailed)
    ensures o'.status == (if success then OrderConfirmed else o.status)
    ensures o'.userId == o.userId && o'.cartId == o.cartId && o'.orderNumber == o.orderNumber
    ensures o'.totalAmount == o.totalAmount && o'.shippingAddress == o.shippingAddress
  {
    if success then o.(paymentStatus := PayCompleted, status := OrderConfirmed)
    else o.(paymentStatus := PayFailed)
  }

  /** There is no guard on the prior status: a payment already completed
      or refunded is settled again like a pending one, and a failed one
      can still complete on a retried job. */
  lemma NoTerminalGuard(p: Payment, txn: string)
    ensures SettlePayment(p.(status := PayCompleted), false, txn).status == PayFailed
    ensures SettlePayment(p.(status := PayRefunded), true, txn).status == PayCompleted
    ensures SettlePayment(SettlePayment(p, false, txn), true, txn).status == PayCompleted
  {
  }

  /** The follow-up job: `order-confirmation` at HIGH on success,
      `payment-failed` at MEDIUM with the failure reason otherwise. Its
      data carries no `type` entry. */
  function NotificationJob(success: bool, orderId: Id, userId: Id): (job: Job)
    ensures job.queue == Notifications
    ensures job.name == (if success then ORDER_CONFIRMATION else PAYMENT_FAILED)
    ensures job.data == NotificationData(None, orderId, userId, if success then None else Some(FAILURE_REASON))
    ensures job.priority == Some(if success then PRIORITY_HIGH else PRIORITY_MEDIUM)
  {
    var name := if success then ORDER_CONFIRMATION else PAYMENT_FAILED;
    var data := NotificationData(None, orderId, userId, if success then None else Some(FAILURE_REASON));
    var options: JobOptions := map["priority" := Some(if success then PRIORITY_HIGH else PRIORITY_MEDIUM)];
    AddJob([], Notifications, name, data, options, true).value[0]
  }

  /** In the notifications queue an order confirmation waits behind a
      payment-failed notice, even one added after it. */
  lemma ConfirmationServedAfterFailure(orderA: Id, userA: Id, orderB: Id, userB: Id)
    ensures NextJob([NotificationJob(true, orderA, userA), NotificationJob(false, orderB, userB)]) == Some(1)
  {
    HighTierServedLastAsWritten(NotificationJob(true, orderA, userA), NotificationJob(false, orderB, userB),
                                NotificationJob(false, orderB, userB).(priority := Some(PRIORITY_LOW)));
  }

  /** `payment.save()` of a new row value; ids and every other table stay. */
  method SavePayment(db: Store, paymentId: Id, p: Payment)
    requires db.Valid() && db.TotalsHold() && paymentId in db.payments
    modifies db
    ensures db.Valid() && db.TotalsHold()
    ensures db.payments == old(db.payments)[paymentId := p]
    ensures unchanged(db`users, db`otps, db`products, db`variants, db`carts, db`cartItems, db`nextId)
    ensures unchanged(db`orders, db`orderItems, db`paymentJobs, db`notificationJobs, db`orderSeq, db`skuSeq)
  {
    db.payments := db.payments[paymentId := p];
  }

  /** `orders.findByPk`, then `order.save()` when the order exists. */
  method SaveOrderIfPresent(db: Store, orderId: Id, success: bool)
    requires db.Valid() && db.TotalsHold()
    modifies db
    ensures db.Valid() && db.TotalsHold()
    ensures db.orders == if orderId in old(db.orders)
                         then old(db.orders)[orderId := SettleOrder(old(db.orders)[orderId], success)]
                         else old(db.orders)
    ensures unchanged(db`users, db`otps, db`products, db`variants, db`carts, db`cartItems, db`nextId)
    ensures unchanged(db`orderItems, db`payments, db`paymentJobs, db`notificationJobs, db`orderSeq, db`skuSeq)
  {
    if orderId in db.orders {
      db.orders := db.orders[orderId := SettleOrder(db.orders[orderId], success)];
    }
  }

  /** `addJob(notificationQueue, ...)`; a failure is rethrown. */
  method EnqueueNotification(db: Store, success: bool, orderId: Id, userId: Id, brokerUp: bool)
    returns (queued: Result<seq<Job>>)
    requires db.Valid() && db.TotalsHold()
    modifies db
    ensures db.Valid() && db.TotalsHold()
    ensures queued.Ok? <==> brokerUp
    ensures db.notificationJobs == if brokerUp then old(db.notificationJobs) + [NotificationJob(success, orderId, userId)]
                                   else old(db.notificationJobs)
    ensures unchanged(db`users, db`otps, db`products, db`variants, db`carts, db`cartItems, db`nextId)
    ensures unchanged(db`orders, db`orderItems, db`payments, db`paymentJobs, db`orderSeq, db`skuSeq)
  {
    var name := if success then ORDER_CONFIRMATION else PAYMENT_FAILED;
    var data := NotificationData(None, orderId, userId, if success then None else Some(FAILURE_REASON));
    var options: JobOptions := map["priority" := Some(if success then PRIORITY_HIGH else PRIORITY_MEDIUM)];
    queued := AddJob(db.notificationJobs, Notifications, name, data, options, brokerUp);
    if queued.Ok? {
      db.notificationJobs := queued.value;
    }
  }

  /** `processPayment` for a `process-payment` job naming `paymentId` and
      `orderId`. `success` is the gateway outcome; `now` and `suffix` make
      the transaction id. The result is the transaction id, or the error
      the handler throws: the payment missing (nothing written), the
      follow-up enqueue failing, or the payment failing. */
  method ProcessPayment(db: Store, paymentId: Id, orderId: Id, success: bool,
                        now: nat, suffix: string, brokerUp: bool)
    returns (r: Result<string>)
    requires db.Valid() && db.TotalsHold()
    modifies db
    ensures db.Valid() && db.TotalsHold()
    ensures paymentId !in old(db.payments) ==>
      r == Err(ServerError("Payment " + Decimal(paymentId) + " not found")) && unchanged(db)
    ensures paymentId in old(db.payments) ==>
      var p := old(db.payments)[paymentId];
      && db.payments == old(db.payments)[paymentId := SettlePayment(p, success, TransactionId(now, suffix))]
      && db.orders == (if orderId in old(db.orders)
                       then old(db.orders)[orderId := SettleOrder(old(db.orders)[orderId], success)]
                       else old(db.orders))
      && db.notificationJobs == (if brokerUp then old(db.notificationJobs) + [NotificationJob(success, orderId, p.userId)]
                                 else old(db.notificationJobs))
      && (r.Ok? <==> success && brokerUp)
      && (r.Ok? ==> r.value == TransactionId(now, suffix))
      && (!success && brokerUp ==> r == Err(ServerError("Payment processing failed")))
    ensures unchanged(db`users, db`otps, db`products, db`variants, db`carts, db`cartItems, db`nextId)
    ensures unchanged(db`orderItems, db`paymentJobs, db`orderSeq, db`skuSeq)
  {
    if paymentId !in db.payments {
      return Err(ServerError("Payment " + Decimal(paymentId) + " not found"));
    }
    var payment := db.payments[paymentId];
    payment := payment.(status := PayProcessing);
    SavePayment(db, paymentId, payment);
    var txn := TransactionId(now, suffix);
    payment := SettlePayment(payment, success, txn);
    SavePayment(db, paymentId, payment);
    SaveOrderIfPresent(db, orderId, success);
    var queued := EnqueueNotification(db, success, orderId, payment.userId, brokerUp);
    if queued.Err? {
      return Err(queued.error);
    }
    if success {
      r := Ok(txn);
    } else {
      r := Err(ServerError("Payment processing failed"));
    }
  }
}
