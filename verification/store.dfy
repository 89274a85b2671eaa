/** The hosted database as the payment integration sees it: four tables held
    as sequences of rows in insertion order, a counter standing for the ids
    the database generates, and the set of tables whose writes the database
    currently refuses (a constraint violation, a permission error or an outage,
    which the code receives as an `error` result). */
module Store {
  import opened Wrappers

  datatype Table = Payments | PaymentEvents | Orders | OrderItems

  /** The `data` object of a gateway notification: the resource id, the
      optional status, and any other fields. */
  datatype WebhookData = WebhookData(id: Option<string>, status: Option<string>, other: map<string, string>)

  /** A parsed notification body: its `action` and its `data` object. */
  datatype Notification = Notification(action: Option<string>, data: Option<WebhookData>)

  /** A value stored in a payment's `metadata` object; the only entry the
      integration writes is `raw`, the notification's data. */
  datatype MetaValue = Raw(data: WebhookData)

  /** A row of `payments`: `id` is the internal key, `paymentId` the
      gateway's id (nullable). */
  datatype PaymentRow = PaymentRow(id: nat, paymentId: Option<string>, orderId: nat, status: string, metadata: map<string, MetaValue>)

  /** What an operation failed with. */
  datatype Failure =
    | InvalidWebhook         // "Datos de webhook inválidos"
    | NotSingle(table: Table) // the single-row query found zero or several rows
    | WriteRejected(table: Table)

  /** The `raw_data` of a payment event: the notification's data, or the
      error report the webhook route writes. */
  datatype EventData = Payload(data: WebhookData) | ErrorReport(error: Failure, webhook: Notification)

  /** A row of `payment_events`; `paymentRef` is the internal id of the
      payment. */
  datatype EventRow = EventRow(id: nat, paymentRef: nat, eventType: string, status: string, rawData: EventData)

  datatype OrderRow = OrderRow(id: nat, customerId: string, totalAmount: real,
                               shippingAddress: Option<map<string, string>>, billingAddress: Option<map<string, string>>)

  datatype OrderItemRow = OrderItemRow(id: nat, orderId: nat, productId: string, quantity: int, unitPrice: real, totalPrice: real)

  datatype Db = Db(
    payments: seq<PaymentRow>,
    events: seq<EventRow>,
    orders: seq<OrderRow>,
    items: seq<OrderItemRow>,
    nextId: nat,
    rejects: set<Table>)

  /** Every id the database has generated, and every reference to one, lies
      below `nextId`: the next generated id is not yet used anywhere. Each
      write of the integration keeps this. */
  predicate Valid(db: Db) {
    && (forall k :: 0 <= k < |db.payments| ==> db.payments[k].id < db.nextId && db.payments[k].orderId < db.nextId)
    && (forall k :: 0 <= k < |db.events| ==> db.events[k].id < db.nextId && db.events[k].paymentRef < db.nextId)
    && (forall k :: 0 <= k < |db.orders| ==> db.orders[k].id < db.nextId)
    && (forall k :: 0 <= k < |db.items| ==> db.items[k].id < db.nextId && db.items[k].orderId < db.nextId)
  }

  /** The database after an operation, and what the operation returned or
      threw. A failure can follow earlier writes, so it carries the database
      too. */
  datatype Step<T> = Step(db: Db, result: Result<T, Failure>)

  /** The `payment_id` column of `payments`. */
  function PaymentIdColumn(payments: seq<PaymentRow>): (col: seq<Option<string>>)
    ensures |col| == |payments|
    ensures forall i :: 0 <= i < |payments| ==> col[i] == payments[i].paymentId
  {
    seq(|payments|, i requires 0 <= i < |payments| => payments[i].paymentId)
  }
}
