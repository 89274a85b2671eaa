/** The display tables of the orders library: a gateway payment status or an
    order status becomes a label and a badge colour; a status the table does
    not list is shown as itself, in gray. */
module StatusLabels {

  datatype StatusInfo = StatusInfo(text: string, color: string)

  /** Every colour either table can produce. */
  const Palette: set<string> := {"yellow", "green", "blue", "orange", "red", "gray", "purple"}

  const PaymentStatusTable: map<string, StatusInfo> := map[
    "pending" := StatusInfo("Pendiente", "yellow"),
    "approved" := StatusInfo("Aprobado", "green"),
    "authorized" := StatusInfo("Autorizado", "blue"),
    "in_process" := StatusInfo("En proceso", "blue"),
    "in_mediation" := StatusInfo("En mediación", "orange"),
    "rejected" := StatusInfo("Rechazado", "red"),
    "cancelled" := StatusInfo("Cancelado", "gray"),
    "refunded" := StatusInfo("Reembolsado", "purple"),
    "charged_back" := StatusInfo("Contracargo", "red")]

  const OrderStatusTable: map<string, StatusInfo> := map[
    "pending" := StatusInfo("Pendiente", "yellow"),
    "pending_payment" := StatusInfo("Pago pendiente", "yellow"),
    "paid" := StatusInfo("Pagada", "green"),
    "processing" := StatusInfo("Procesando", "blue"),
    "shipped" := StatusInfo("Enviada", "blue"),
    "delivered" := StatusInfo("Entregada", "green"),
    "cancelled" := StatusInfo("Cancelada", "gray"),
    "refunded" := StatusInfo("Reembolsada", "purple"),
    "payment_failed" := StatusInfo("Pago fallido", "red")]

  /** A table whose colours are all in the palette and none of whose labels
      repeats its own key. */
  ghost predicate WellFormedTable(table: map<string, StatusInfo>) {
    forall s :: s in table ==> table[s].color in Palette && table[s].text != s
  }

  /** The entry a table holds for a status; a status the table does not
      list falls back to itself as the label, in gray. On a well-formed
      table the label repeats the status exactly for the fallback. */
  function Lookup(table: map<string, StatusInfo>, status: string): (r: StatusInfo)
    ensures status in table ==> r == table[status]
    ensures status !in table ==> r == StatusInfo(status, "gray")
    ensures WellFormedTable(table) ==> r.color in Palette && (r.text == status <==> status !in table)
  {
    if status in table then table[status] else StatusInfo(status, "gray")
  }

  lemma TablesWellFormed()
    ensures WellFormedTable(PaymentStatusTable)
    ensures WellFormedTable(OrderStatusTable)
  {
  }

  function FormatPaymentStatus(status: string): (r: StatusInfo)
    ensures status in PaymentStatusTable ==> r == PaymentStatusTable[status]
    ensures r.color in Palette
    ensures r.text == status <==> status !in PaymentStatusTable
    ensures status !in PaymentStatusTable ==> r == StatusInfo(status, "gray")
  {
    TablesWellFormed();
    Lookup(PaymentStatusTable, status)
  }

  function FormatOrderStatus(status: string): (r: StatusInfo)
    ensures status in OrderStatusTable ==> r == OrderStatusTable[status]
    ensures r.color in Palette
    ensures r.text == status <==> status !in OrderStatusTable
    ensures status !in OrderStatusTable ==> r == StatusInfo(status, "gray")
  {
    TablesWellFormed();
    Lookup(OrderStatusTable, status)
  }

  /** The nine gateway statuses and what each shows. */
  lemma PaymentStatusEntries()
    ensures PaymentStatusTable.Keys ==
      {"pending", "approved", "authorized", "in_process", "in_mediation", "rejected", "cancelled", "refunded", "charged_back"}
    ensures FormatPaymentStatus("pending") == StatusInfo("Pendiente", "yellow")
    ensures FormatPaymentStatus("approved") == StatusInfo("Aprobado", "green")
    ensures FormatPaymentStatus("authorized") == StatusInfo("Autorizado", "blue")
    ensures FormatPaymentStatus("in_process") == StatusInfo("En proceso", "blue")
    ensures FormatPaymentStatus("in_mediation") == StatusInfo("En mediación", "orange")
    ensures FormatPaymentStatus("rejected") == StatusInfo("Rechazado", "red")
    ensures FormatPaymentStatus("cancelled") == StatusInfo("Cancelado", "gray")
    ensures FormatPaymentStatus("refunded") == StatusInfo("Reembolsado", "purple")
    ensures FormatPaymentStatus("charged_back") == StatusInfo("Contracargo", "red")
  {
  }

  /** The nine order statuses and what each shows. */
  lemma OrderStatusEntries()
    ensures OrderStatusTable.Keys ==
      {"pending", "pending_payment", "paid", "processing", "shipped", "delivered", "cancelled", "refunded", "payment_failed"}
    ensures FormatOrderStatus("pending") == StatusInfo("Pendiente", "yellow")
    ensures FormatOrderStatus("pending_payment") == StatusInfo("Pago pendiente", "yellow")
    ensures FormatOrderStatus("paid") == StatusInfo("Pagada", "green")
    ensures FormatOrderStatus("processing") == StatusInfo("Procesando", "blue")
    ensures FormatOrderStatus("shipped") == StatusInfo("Enviada", "blue")
    ensures FormatOrderStatus("delivered") == StatusInfo("Entregada", "green")
    ensures FormatOrderStatus("cancelled") == StatusInfo("Cancelada", "gray")
    ensures FormatOrderStatus("refunded") == StatusInfo("Reembolsada", "purple")
    ensures FormatOrderStatus("payment_failed") == StatusInfo("Pago fallido", "red")
  {
  }

  /** The tables are separate: `cancelled` reads differently for a payment
      and for an order, while a status neither lists reads the same. */
  lemma TablesAreDistinct()
    ensures FormatPaymentStatus("cancelled").text != FormatOrderStatus("cancelled").text
    ensures FormatPaymentStatus("completed") == FormatOrderStatus("completed")
  {
  }
}
