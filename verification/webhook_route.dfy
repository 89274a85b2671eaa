/** The `POST` handler of the gateway's webhook endpoint: a body without an
    action or data object is refused with 400; anything else is handed to the
    notification processing and answered with 200, even when processing fails,
    because the gateway retries on 4xx and 5xx answers. */
module WebhookRoute {
  import opened Wrappers
  import opened Store
  import opened Sync

  /** `MERCADOPAGO_CONFIG.syncWithSupabase`, fixed in the configuration. */
  const SyncWithSupabase := true

  /** The request body: not JSON at all, the JSON `null`, or a JSON value read
      as a notification (a value without the fields reads as absent). */
  datatype Body = Unparsable | NullJson | Json(notification: Notification)

  /** Why a 200 answer carries an `error` instead of `success`. */
  datatype Cause =
    | ParseError              // `request.json()` threw
    | NullAccess              // reading `.action` of `null` threw
    | Processing(f: Failure)  // `processWebhook` threw

  const InvalidFormatMessage := "Formato de webhook inválido"

  /** The JSON answer: `{ success: true }`, the 400's `error` text, or the
      `error` of a 200 answer. */
  datatype Reply = Acknowledged | InvalidFormat(message: string) | Error(cause: Cause)

  datatype Response = Response(status: nat, reply: Reply)

  datatype Handled = Handled(db: Db, response: Response)

  /** The route's own check, weaker than the processing's: `data.id` is not
      looked at. */
  predicate PassesRouteCheck(n: Notification) {
    Truthy(n.action) && n.data.Some?
  }

  /** Whether the catch block's error event can be written: `data.id` is
      present, exactly one payment has that gateway id, and the events table
      accepts the insert. */
  ghost predicate Recordable(db: Db, n: Notification) {
    && n.data.Some? && Truthy(n.data.value.id)
    && (exists i :: SinglePayment(db, n.data.value.id.value, i))
    && PaymentEvents !in db.rejects
  }

  /** The error event the catch block attempts, only when synchronisation
      is on and `data.data.id` is present; its own failure is swallowed. */
  function RecordError(db: Db, n: Notification, f: Failure): (r: Db)
    ensures Valid(db) ==> Valid(r)
    ensures !Recordable(db, n) ==> r == db
    ensures Recordable(db, n) ==>
      exists i ::
        && SinglePayment(db, n.data.value.id.value, i)
        && r == db.(events := db.events + [EventRow(db.nextId, db.payments[i].id, "webhook.error", "error", ErrorReport(f, n))],
                    nextId := db.nextId + 1)
  {
    if SyncWithSupabase && n.data.Some? && Truthy(n.data.value.id) then
      CreatePaymentEvent(db, n.data.value.id.value, "webhook.error", "error", ErrorReport(f, n)).db
    else
      db
  }

  /** `POST /api/webhooks/mercadopago`. */
  function Post(db: Db, body: Body): (h: Handled)
    ensures Valid(db) ==> Valid(h.db)
    ensures h.response.status in {200, 400}
    ensures h.response.status == 400 <==> body.Json? && !PassesRouteCheck(body.notification)
    ensures h.response.status == 400 ==> h.response.reply == InvalidFormat(InvalidFormatMessage) && h.db == db
    ensures h.response.reply == Acknowledged <==>
      body.Json? && PassesRouteCheck(body.notification) && ProcessWebhook(db, body.notification).result.Ok?
    ensures h.response.reply == Acknowledged ==> h.db == ProcessWebhook(db, body.notification).db
    ensures body.Unparsable? ==> h == Handled(db, Response(200, Error(ParseError)))
    ensures body.NullJson? ==> h == Handled(db, Response(200, Error(NullAccess)))
    ensures body.Json? && PassesRouteCheck(body.notification) && ProcessWebhook(db, body.notification).result.Err? ==>
      var s := ProcessWebhook(db, body.notification);
      h == Handled(RecordError(s.db, body.notification, s.result.error), Response(200, Error(Processing(s.result.error))))
  {
    match body
    case Unparsable => Handled(db, Response(200, Error(ParseError)))
    case NullJson => Handled(db, Response(200, Error(NullAccess)))
    case Json(n) =>
      if !PassesRouteCheck(n) then
        Handled(db, Response(400, InvalidFormat(InvalidFormatMessage)))
      else
        var s := ProcessWebhook(db, n);
        if s.result.Ok? then Handled(s.db, Response(200, Acknowledged))
        else Handled(RecordError(s.db, n, s.result.error), Response(200, Error(Processing(s.result.error))))
  }

  /** A processing failure is answered with 200 and the failure itself,
      whatever happens while recording it. */
  lemma FailureAnsweredWith200(db: Db, n: Notification)
    requires PassesRouteCheck(n) && ProcessWebhook(db, n).result.Err?
    ensures Post(db, Json(n)).response == Response(200, Error(Processing(ProcessWebhook(db, n).result.error)))
  {
  }

  /** Recording the error cannot change the answer: two databases that
      differ only in which tables refuse writes get the same response when
      processing fails the same way in both. */
  lemma RecordingDoesNotChangeResponse(db1: Db, db2: Db, n: Notification)
    requires PassesRouteCheck(n)
    requires ProcessWebhook(db1, n).result.Err? && ProcessWebhook(db1, n).result == ProcessWebhook(db2, n).result
    ensures Post(db1, Json(n)).response == Post(db2, Json(n)).response
  {
  }

  /** A body with `data` but no `data.id` passes the route's check, fails in
      the processing, records nothing and is answered with a 200 error. */
  lemma MissingIdIsA200Error(db: Db, action: string, d: WebhookData)
    requires action != "" && !Truthy(d.id)
    ensures Post(db, Json(Notification(Some(action), Some(d)))) ==
      Handled(db, Response(200, Error(Processing(InvalidWebhook))))
  {
  }

  /** The only answer other than 200 is the 400 for a missing action or
      data object, and it writes nothing. */
  lemma MalformedIs400(db: Db, n: Notification)
    requires !Truthy(n.action) || n.data.None?
    ensures Post(db, Json(n)) == Handled(db, Response(400, InvalidFormat(InvalidFormatMessage)))
  {
  }

  /** An error event is recorded on a failed payment notification whose
      status update the database refused, since the payment itself can still
      be found. */
  lemma RefusedUpdateLeavesErrorEvent(db: Db, n: Notification, i: nat)
    requires WellFormed(n) && IsPaymentAction(n.action.value)
    requires SinglePayment(db, n.data.value.id.value, i)
    requires Payments in db.rejects && PaymentEvents !in db.rejects
    ensures var h := Post(db, Json(n));
            && h.response == Response(200, Error(Processing(WriteRejected(Payments))))
            && h.db.events == db.events + [EventRow(db.nextId, db.payments[i].id, "webhook.error", "error",
                                                    ErrorReport(WriteRejected(Payments), n))]
  {
  }
}
