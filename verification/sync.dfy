/** The payment integration's writes: updating a payment's status, recording
    a payment event, creating an order with its items, and processing a gateway
    notification with the first two. Each runs against the abstract database
    and returns the database after its writes together with its result. */
module Sync {
  import opened Wrappers
  import opened Lookup
  import opened Store

  /** The payment rows matched by a gateway id: exactly one, at index `i`. */
  ghost predicate SinglePayment(db: Db, paymentId: string, i: int) {
    UniqueMatch(PaymentIdColumn(db.payments), Some(paymentId), i)
  }

  /** `updatePaymentStatus`: set `status` and replace `metadata` on the one
      payment with the gateway id. With no such row, or several, nothing is
      written (the single-row assumption) and the call throws. */
  function UpdatePaymentStatus(db: Db, paymentId: string, status: string, metadata: map<string, MetaValue>): (s: Step<PaymentRow>)
    ensures Valid(db) ==> Valid(s.db)
    ensures s.result.Ok? <==> (exists i :: SinglePayment(db, paymentId, i)) && Payments !in db.rejects
    ensures s.result.Err? ==> s.db == db
    ensures (forall i :: !SinglePayment(db, paymentId, i)) ==> s.result == Err(NotSingle(Payments))
    ensures s.result.Err? && (exists i :: SinglePayment(db, paymentId, i)) ==> s.result == Err(WriteRejected(Payments))
    ensures s.result.Ok? ==>
      exists i ::
        && SinglePayment(db, paymentId, i)
        && s.result.value == db.payments[i].(status := status, metadata := metadata)
        && s.db == db.(payments := db.payments[i := s.result.value])
  {
    match SingleIndex(PaymentIdColumn(db.payments), Some(paymentId))
    case None => Step(db, Err(NotSingle(Payments)))
    case Some(i) =>
      assert SinglePayment(db, paymentId, i);
      if Payments in db.rejects then Step(db, Err(WriteRejected(Payments)))
      else
        var row := db.payments[i].(status := status, metadata := metadata);
        Step(db.(payments := db.payments[i := row]), Ok(row))
  }

  /** `createPaymentEvent`: look up the payment's internal id by gateway id,
      then append one event that refers to it. */
  function CreatePaymentEvent(db: Db, paymentId: string, eventType: string, status: string, rawData: EventData): (s: Step<EventRow>)
    ensures Valid(db) ==> Valid(s.db)
    ensures s.result.Ok? <==> (exists i :: SinglePayment(db, paymentId, i)) && PaymentEvents !in db.rejects
    ensures s.result.Err? ==> s.db == db
    ensures (forall i :: !SinglePayment(db, paymentId, i)) ==> s.result == Err(NotSingle(Payments))
    ensures s.result.Err? && (exists i :: SinglePayment(db, paymentId, i)) ==> s.result == Err(WriteRejected(PaymentEvents))
    ensures s.result.Ok? ==>
      exists i ::
        && SinglePayment(db, paymentId, i)
        && s.result.value == EventRow(db.nextId, db.payments[i].id, eventType, status, rawData)
        && s.db == db.(events := db.events + [s.result.value], nextId := db.nextId + 1)
  {
    match SingleIndex(PaymentIdColumn(db.payments), Some(paymentId))
    case None => Step(db, Err(NotSingle(Payments)))
    case Some(i) =>
      assert SinglePayment(db, paymentId, i);
      if PaymentEvents in db.rejects then Step(db, Err(WriteRejected(PaymentEvents)))
      else
        var row := EventRow(db.nextId, db.payments[i].id, eventType, status, rawData);
        Step(db.(events := db.events + [row], nextId := db.nextId + 1), Ok(row))
  }

  /** One line of a new order, as the caller passes it. */
  datatype ItemInput = ItemInput(productId: string, quantity: int, unitPrice: real)

  /** The `order_items` rows built from the inputs, in order, ids from
      `firstId` on. */
  function ItemRows(inputs: seq<ItemInput>, orderId: nat, firstId: nat): (rows: seq<OrderItemRow>)
    ensures |rows| == |inputs|
    ensures forall k :: 0 <= k < |inputs| ==>
      && rows[k].id == firstId + k
      && rows[k].orderId == orderId
      && rows[k].productId == inputs[k].productId
      && rows[k].quantity == inputs[k].quantity
      && rows[k].unitPrice == inputs[k].unitPrice
      && rows[k].totalPrice == inputs[k].quantity as real * inputs[k].unitPrice
  {
    if |inputs| == 0 then []
    else
      var x := inputs[0];
      [OrderItemRow(firstId, orderId, x.productId, x.quantity, x.unitPrice, x.quantity as real * x.unitPrice)]
        + ItemRows(inputs[1..], orderId, firstId + 1)
  }

  /** `createOrder`: insert the order, then insert all its items in one
      batch. A failed item insert is rethrown and the order row stays: there
      is no cleanup. */
  function CreateOrder(db: Db, customerId: string, inputs: seq<ItemInput>, totalAmount: real,
                       shipping: Option<map<string, string>>, billing: Option<map<string, string>>): (s: Step<OrderRow>)
    ensures Valid(db) ==> Valid(s.db)
    ensures Orders in db.rejects ==> s == Step(db, Err(WriteRejected(Orders)))
    ensures Valid(db) && Orders !in db.rejects ==>
      && |s.db.orders| == |db.orders| + 1
      && (forall k :: 0 <= k < |db.items| ==> db.items[k].orderId != s.db.orders[|db.orders|].id)
      && (forall k :: 0 <= k < |db.payments| ==> db.payments[k].orderId != s.db.orders[|db.orders|].id)
    ensures Orders !in db.rejects ==>
      var order := OrderRow(db.nextId, customerId, totalAmount, shipping, billing);
      && s.db.orders == db.orders + [order]
      && s.db.payments == db.payments && s.db.events == db.events
      && (OrderItems in db.rejects ==> s.result == Err(WriteRejected(OrderItems)) && s.db.items == db.items)
      && (OrderItems !in db.rejects ==> s.result == Ok(order) && s.db.items == db.items + ItemRows(inputs, order.id, db.nextId + 1))
  {
    if Orders in db.rejects then Step(db, Err(WriteRejected(Orders)))
    else
      var order := OrderRow(db.nextId, customerId, totalAmount, shipping, billing);
      var withOrder := db.(orders := db.orders + [order], nextId := db.nextId + 1);
      if OrderItems in db.rejects then Step(withOrder, Err(WriteRejected(OrderItems)))
      else
        var rows := ItemRows(inputs, order.id, withOrder.nextId);
        Step(withOrder.(items := withOrder.items + rows, nextId := withOrder.nextId + |rows|), Ok(order))
  }

  /** The acknowledgement `{ success: true }`. */
  datatype Ack = Success

  predicate IsPaymentAction(action: string) {
    action == "payment.created" || action == "payment.updated"
  }

  /** The check `processWebhook` starts with: a non-empty `action`, a `data`
      object and a non-empty `data.id`. */
  predicate WellFormed(n: Notification) {
    Truthy(n.action) && n.data.Some? && Truthy(n.data.value.id)
  }

  /** `processWebhook`: for a payment action, update the payment's status and
      then record the event; any other action writes nothing. */
  function ProcessWebhook(db: Db, n: Notification): (s: Step<Ack>)
    ensures Valid(db) ==> Valid(s.db)
    ensures !WellFormed(n) ==> s == Step(db, Err(InvalidWebhook))
    ensures WellFormed(n) && !IsPaymentAction(n.action.value) ==> s == Step(db, Ok(Success))
  {
    if !WellFormed(n) then Step(db, Err(InvalidWebhook))
    else
      var action := n.action.value;
      var d := n.data.value;
      if !IsPaymentAction(action) then Step(db, Ok(Success))
      else
        var updated := UpdatePaymentStatus(db, d.id.value, OrElse(d.status, "pending"), map["raw" := Raw(d)]);
        if updated.result.Err? then Step(updated.db, Err(updated.result.error))
        else
          var recorded := CreatePaymentEvent(updated.db, d.id.value, action, OrElse(d.status, "unknown"), Payload(d));
          if recorded.result.Err? then Step(recorded.db, Err(recorded.result.error))
          else Step(recorded.db, Ok(Success))
  }

  /** A successful payment notification changes exactly one payment row (its
      status becomes the notification's status, or `pending` without one; its
      metadata becomes `{ raw: data }`, dropping whatever was there) and
      appends exactly one event (type = the action, status = the
      notification's status or `unknown`, referring to that payment). Orders
      and items are untouched. */
  lemma {:induction false} PaymentNotificationEffect(db: Db, n: Notification)
    requires WellFormed(n) && IsPaymentAction(n.action.value)
    requires ProcessWebhook(db, n).result.Ok?
    ensures var d := n.data.value;
            var s := ProcessWebhook(db, n);
            exists i :: SinglePayment(db, d.id.value, i)
              && s.db.payments == db.payments[i := db.payments[i].(status := OrElse(d.status, "pending"), metadata := map["raw" := Raw(d)])]
              && s.db.events == db.events + [EventRow(db.nextId, db.payments[i].id, n.action.value, OrElse(d.status, "unknown"), Payload(d))]
              && s.db.orders == db.orders && s.db.items == db.items
  {
    var d := n.data.value;
    var u := UpdatePaymentStatus(db, d.id.value, OrElse(d.status, "pending"), map["raw" := Raw(d)]);
    var i :| SinglePayment(db, d.id.value, i) && u.db == db.(payments := db.payments[i := u.result.value])
             && u.result.value == db.payments[i].(status := OrElse(d.status, "pending"), metadata := map["raw" := Raw(d)]);
    var e := CreatePaymentEvent(u.db, d.id.value, n.action.value, OrElse(d.status, "unknown"), Payload(d));
    var j :| SinglePayment(u.db, d.id.value, j)
             && e.result.value == EventRow(u.db.nextId, u.db.payments[j].id, n.action.value, OrElse(d.status, "unknown"), Payload(d));
    assert PaymentIdColumn(u.db.payments) == PaymentIdColumn(db.payments);
    assert i == j;
  }

  /** A payment notification succeeds exactly when one payment has the id
      and neither table refuses the write. */
  lemma PaymentNotificationSucceeds(db: Db, n: Notification)
    requires WellFormed(n) && IsPaymentAction(n.action.value)
    ensures ProcessWebhook(db, n).result.Ok? <==>
      (exists i :: SinglePayment(db, n.data.value.id.value, i)) && Payments !in db.rejects && PaymentEvents !in db.rejects
  {
    var d := n.data.value;
    var u := UpdatePaymentStatus(db, d.id.value, OrElse(d.status, "pending"), map["raw" := Raw(d)]);
    if u.result.Ok? {
      assert PaymentIdColumn(u.db.payments) == PaymentIdColumn(db.payments);
      assert forall i :: SinglePayment(u.db, d.id.value, i) <==> SinglePayment(db, d.id.value, i);
    }
  }

  /** When the status update fails (no payment, or several, with the id), no
      event is recorded, nothing is written, and the failure propagates. */
  lemma UnknownPaymentWritesNothing(db: Db, n: Notification)
    requires WellFormed(n) && IsPaymentAction(n.action.value)
    requires forall i :: !SinglePayment(db, n.data.value.id.value, i)
    ensures ProcessWebhook(db, n) == Step(db, Err(NotSingle(Payments)))
  {
  }

  /** Not atomic: when the event insert is refused after the status update
      succeeded, the payment stays updated and the call still throws. */
  lemma UpdateWithoutEvent(db: Db, n: Notification, i: nat)
    requires WellFormed(n) && IsPaymentAction(n.action.value)
    requires SinglePayment(db, n.data.value.id.value, i)
    requires Payments !in db.rejects && PaymentEvents in db.rejects
    ensures var s := ProcessWebhook(db, n);
            && s.result == Err(WriteRejected(PaymentEvents))
            && s.db.events == db.events
            && s.db.payments[i].status == OrElse(n.data.value.status, "pending")
  {
    var d := n.data.value;
    var u := UpdatePaymentStatus(db, d.id.value, OrElse(d.status, "pending"), map["raw" := Raw(d)]);
    assert PaymentIdColumn(u.db.payments) == PaymentIdColumn(db.payments);
    assert SinglePayment(u.db, d.id.value, i);
  }

  /** Not idempotent under duplicate delivery: the payment ends the same,
      but each delivery appends its own event. */
  lemma {:induction false} DuplicateDeliveryDuplicatesEvents(db: Db, n: Notification)
    requires WellFormed(n) && IsPaymentAction(n.action.value)
    requires ProcessWebhook(db, n).result.Ok?
    ensures var once := ProcessWebhook(db, n);
            var twice := ProcessWebhook(once.db, n);
            && twice.result.Ok?
            && twice.db.payments == once.db.payments
            && |twice.db.events| == |db.events| + 2
  {
    var d := n.data.value;
    var once := ProcessWebhook(db, n);
    PaymentNotificationEffect(db, n);
    var i :| SinglePayment(db, d.id.value, i)
             && once.db.payments == db.payments[i := db.payments[i].(status := OrElse(d.status, "pending"), metadata := map["raw" := Raw(d)])]
             && once.db.events == db.events + [EventRow(db.nextId, db.payments[i].id, n.action.value, OrElse(d.status, "unknown"), Payload(d))];
    assert PaymentIdColumn(once.db.payments) == PaymentIdColumn(db.payments);
    assert SinglePayment(once.db, d.id.value, i);
    PaymentNotificationSucceeds(db, n);
    PaymentNotificationSucceeds(once.db, n);
    PaymentNotificationEffect(once.db, n);
    var j :| SinglePayment(once.db, d.id.value, j)
             && ProcessWebhook(once.db, n).db.payments == once.db.payments[j := once.db.payments[j].(status := OrElse(d.status, "pending"), metadata := map["raw" := Raw(d)])]
             && ProcessWebhook(once.db, n).db.events == once.db.events + [EventRow(once.db.nextId, once.db.payments[j].id, n.action.value, OrElse(d.status, "unknown"), Payload(d))];
    assert i == j;
  }

  /** The stored status and the event's status disagree when the
      notification carries none: `pending` on the payment, `unknown` on the
      event. */
  lemma MissingStatusDefaults(db: Db, id: string, action: string, other: map<string, string>)
    requires IsPaymentAction(action) && id != ""
    requires ProcessWebhook(db, Notification(Some(action), Some(WebhookData(Some(id), None, other)))).result.Ok?
    ensures var n := Notification(Some(action), Some(WebhookData(Some(id), None, other)));
            var s := ProcessWebhook(db, n);
            s.db.events[|s.db.events| - 1].status == "unknown"
            && exists i :: 0 <= i < |s.db.payments| && s.db.payments[i].paymentId == Some(id) && s.db.payments[i].status == "pending"
  {
    var n := Notification(Some(action), Some(WebhookData(Some(id), None, other)));
    PaymentNotificationEffect(db, n);
  }

  /** An item insert that fails leaves the new order row in place with no
      item at all: the item table is as before, and on a valid database no
      earlier item carries the new order's id either. */
  lemma CreateOrderPartialFailure(db: Db, customerId: string, inputs: seq<ItemInput>, totalAmount: real,
                                  shipping: Option<map<string, string>>, billing: Option<map<string, string>>)
    requires Valid(db)
    requires Orders !in db.rejects && OrderItems in db.rejects
    ensures var s := CreateOrder(db, customerId, inputs, totalAmount, shipping, billing);
            && s.result == Err(WriteRejected(OrderItems))
            && Valid(s.db)
            && |s.db.orders| == |db.orders| + 1
            && s.db.items == db.items
            && forall k :: 0 <= k < |s.db.items| ==> s.db.items[k].orderId != s.db.orders[|db.orders|].id
  {
  }

  /** The stored order total is whatever the caller passed: it is not
      checked against the items. */
  lemma OrderTotalNotChecked(db: Db)
    requires Orders !in db.rejects && OrderItems !in db.rejects
    ensures var s := CreateOrder(db, "c", [ItemInput("p", 2, 5.0)], 1.0, None, None);
            && s.result.Ok? && s.result.value.totalAmount == 1.0
            && s.db.items[|s.db.items| - 1].totalPrice == 10.0
  {
  }
}
