/** The order confirmation page reached from the payment gateway's redirect:
    the details it derives from the query string, and the three-way reading of
    the payment status in its header. */
module Confirmation {
  import opened Wrappers

  /** The query string; `searchParams.get` gives null for an absent name. */
  type Params = map<string, string>

  function Param(params: Params, name: string): Option<string> {
    if name in params then Some(params[name]) else None
  }

  datatype Details = Details(id: string, paymentMethod: string, paymentStatus: string, paymentId: Option<string>)

  const DefaultPaymentMethod := "MercadoPago"
  const DefaultStatus := "approved"

  /** The details built from the query string. `generatedId` stands for the
      random `ORD-nnnnnn` id used when `merchant_order_id` is missing or
      empty. */
  function DetailsFromParams(params: Params, generatedId: string): (d: Details)
    ensures Truthy(Param(params, "merchant_order_id")) ==> d.id == params["merchant_order_id"]
    ensures !Truthy(Param(params, "merchant_order_id")) ==> d.id == generatedId
    ensures d.paymentMethod == (if Truthy(Param(params, "payment_type")) then params["payment_type"] else DefaultPaymentMethod)
    ensures d.paymentStatus == (if Truthy(Param(params, "status")) then params["status"] else DefaultStatus)
    ensures d.paymentId == Param(params, "payment_id")
  {
    Details(
      OrElse(Param(params, "merchant_order_id"), generatedId),
      OrElse(Param(params, "payment_type"), DefaultPaymentMethod),
      OrElse(Param(params, "status"), DefaultStatus),
      Param(params, "payment_id"))
  }

  /** The header's reading of the payment status. */
  datatype Outcome = Confirmed | InProgress | Rejected

  /** Approved confirms, pending or in process waits, and every other
      status, an unknown one included, reads as a rejection. */
  function Classify(status: string): (o: Outcome)
    ensures o == Confirmed <==> status == "approved"
    ensures o == InProgress <==> status in {"pending", "in_process"}
    ensures o == Rejected <==> status !in {"approved", "pending", "in_process"}
  {
    if status == "approved" then Confirmed
    else if status == "pending" || status == "in_process" then InProgress
    else Rejected
  }

  /** The header title of each reading; the three titles differ, so the
      title alone tells the reading. */
  function Title(o: Outcome): (t: string)
    ensures t in {"¡Pedido Confirmado!", "Pedido en Proceso", "Pago Rechazado"}
    ensures t == "¡Pedido Confirmado!" <==> o == Confirmed
    ensures t == "Pedido en Proceso" <==> o == InProgress
    ensures t == "Pago Rechazado" <==> o == Rejected
  {
    match o
    case Confirmed => "¡Pedido Confirmado!"
    case InProgress => "Pedido en Proceso"
    case Rejected => "Pago Rechazado"
  }

  const CompletedBadge := "Pago Completado"

  /** The status-dependent parts of the rendered page: the header title,
      the payment-id line (shown only for a non-empty `payment_id`), the
      badge beside the details and the payment method. */
  datatype View = View(outcome: Outcome, title: string, paymentIdLine: Option<string>, badge: string, paymentMethod: string)

  function Render(d: Details): (v: View)
    ensures v.outcome == Classify(d.paymentStatus)
    ensures v.title == Title(v.outcome)
    ensures v.badge == CompletedBadge
    ensures v.paymentMethod == d.paymentMethod
    ensures v.paymentIdLine.Some? <==> Truthy(d.paymentId)
    ensures v.paymentIdLine.Some? ==> v.paymentIdLine.value == d.paymentId.value
  {
    var outcome := Classify(d.paymentStatus);
    View(outcome, Title(outcome), if Truthy(d.paymentId) then d.paymentId else None, CompletedBadge, d.paymentMethod)
  }

  /** The header: approved confirms, pending or in process waits, anything
      else (including an unknown status) is a rejection. This chains the
      clauses of `Classify` and `Title` through `Render`, from the status
      string straight to the title shown. */
  lemma HeaderClassification(d: Details)
    ensures Render(d).title == "¡Pedido Confirmado!" <==> d.paymentStatus == "approved"
    ensures Render(d).title == "Pedido en Proceso" <==> d.paymentStatus in {"pending", "in_process"}
    ensures Render(d).title == "Pago Rechazado" <==> d.paymentStatus !in {"approved", "pending", "in_process"}
  {
  }

  /** A redirect without a status, or with an empty one, is read as
      approved. */
  lemma MissingStatusConfirms(params: Params, generatedId: string)
    requires !Truthy(Param(params, "status"))
    ensures Render(DetailsFromParams(params, generatedId)).outcome == Confirmed
  {
  }

  /** The "Pago Completado" badge is shown whatever the payment status, even
      on a rejected payment. */
  lemma BadgeIgnoresStatus(d: Details, status: string)
    ensures Render(d.(paymentStatus := status)).badge == Render(d).badge == CompletedBadge
  {
  }
}
