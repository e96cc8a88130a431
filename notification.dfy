/**
 * The notification worker's job handler. It reads the order with its user
 * and decides which channels (email, SMS) to notify on; sending is only
 * logged, and nothing in the store is written, so the handler is a
 * function of the tables it reads.
 */
module NotificationWorker {
  import opened Common
  import opened Entities
  import opened JobQueue
  import PaymentWorker

  datatype Channel = Email | Sms

  /** The handler's answer `{ success: true, orderId, userId }`, with the
      channels it notified on, in order. `userId` is absent when the job
      data has none. */
  datatype Delivery = Delivery(channels: seq<Channel>, orderId: Id, userId: Option<Id>)

  /** The user joined to an order, if the row exists. */
  function OrderUser(users: map<Id, User>, o: Order): Option<User>
  {
    if o.userId in users then Some(users[o.userId]) else None
  }

  predicate HasEmail(u: Option<User>) { u.Some? && u.value.email != "" }

  predicate HasPhone(u: Option<User>) { u.Some? && TruthyStr(u.value.phone) }

  /** The channel rule: an order confirmation goes by email when the user
      has an address and by SMS when they have a phone; a payment failure
      only by email; any other type notifies nobody. */
  function Channels(kind: Option<string>, u: Option<User>): (cs: seq<Channel>)
    ensures Email in cs <==> (kind == Some(PaymentWorker.ORDER_CONFIRMATION) || kind == Some(PaymentWorker.PAYMENT_FAILED)) && HasEmail(u)
    ensures Sms in cs <==> kind == Some(PaymentWorker.ORDER_CONFIRMATION) && HasPhone(u)
    ensures |cs| <= 2 && (|cs| == 2 ==> cs == [Email, Sms])
  {
    if kind == Some(PaymentWorker.ORDER_CONFIRMATION) then
      (if HasEmail(u) then [Email] else []) + (if HasPhone(u) then [Sms] else [])
    else if kind == Some(PaymentWorker.PAYMENT_FAILED) then
      (if HasEmail(u) then [Email] else [])
    else []
  }

  /** `processNotification` on the values it destructures from the job
      data: the order must exist, otherwise the handler throws. */
  function Notify(orders: map<Id, Order>, users: map<Id, User>,
                  kind: Option<string>, orderId: Id, userId: Option<Id>): (r: Result<Delivery>)
    ensures r.Ok? <==> orderId in orders
    ensures r.Err? ==> r.error == ServerError("Order " + Decimal(orderId) + " not found")
    ensures r.Ok? ==> r.value.orderId == orderId && r.value.userId == userId
    ensures r.Ok? ==> r.value.channels == Channels(kind, OrderUser(users, orders[orderId]))
  {
    if orderId !in orders then Err(ServerError("Order " + Decimal(orderId) + " not found"))
    else Ok(Delivery(Channels(kind, OrderUser(users, orders[orderId])), orderId, userId))
  }

  /** The handler as written: the notification type is read from the
      job's data. */
  function HandleAsWritten(orders: map<Id, Order>, users: map<Id, User>, job: Job): (r: Result<Delivery>)
    ensures job.data.NotificationData? ==>
      r == Notify(orders, users, job.data.kind, job.data.orderId, Some(job.data.userId))
    ensures job.data.PaymentData? ==> r == Notify(orders, users, None, job.data.orderId, None)
  {
    match job.data
    case NotificationData(kind, orderId, userId, _) => Notify(orders, users, kind, orderId, Some(userId))
    case PaymentData(_, orderId, _, _) => Notify(orders, users, None, orderId, None)
  }

  /** The jobs the payment worker adds carry no type in their data, so the
      handler as written notifies nobody for them, whatever the user's
      contact details. */
  lemma PaymentWorkerJobsNotifyNobody(orders: map<Id, Order>, users: map<Id, User>,
                                      success: bool, orderId: Id, userId: Id)
    ensures var r := HandleAsWritten(orders, users, PaymentWorker.NotificationJob(success, orderId, userId));
      r.Ok? ==> r.value.channels == []
  {
    var job := PaymentWorker.NotificationJob(success, orderId, userId);
    assert job.data.kind == None;
  }

  /** The handler as evidently intended: the notification type is the
      job's name, which the payment worker does set. */
  function Handle(orders: map<Id, Order>, users: map<Id, User>, job: Job): (r: Result<Delivery>)
    ensures job.data.NotificationData? ==>
      r == Notify(orders, users, Some(job.name), job.data.orderId, Some(job.data.userId))
    ensures job.data.PaymentData? ==> r == Notify(orders, users, Some(job.name), job.data.orderId, None)
  {
    match job.data
    case NotificationData(_, orderId, userId, _) => Notify(orders, users, Some(job.name), orderId, Some(userId))
    case PaymentData(_, orderId, _, _) => Notify(orders, users, Some(job.name), orderId, None)
  }

  /** With the type taken from the job name, a confirmation reaches the
      user by email and SMS when they have both, and a payment failure by
      email only. */
  lemma PaymentWorkerJobsNotifyUser(orders: map<Id, Order>, users: map<Id, User>,
                                    success: bool, orderId: Id, userId: Id)
    requires orderId in orders
    ensures var r := Handle(orders, users, PaymentWorker.NotificationJob(success, orderId, userId));
      var u := OrderUser(users, orders[orderId]);
      && r.Ok?
      && (Email in r.value.channels <==> HasEmail(u))
      && (Sms in r.value.channels <==> success && HasPhone(u))
  {
    var job := PaymentWorker.NotificationJob(success, orderId, userId);
    assert job.name == (if success then PaymentWorker.ORDER_CONFIRMATION else PaymentWorker.PAYMENT_FAILED);
  }
}
