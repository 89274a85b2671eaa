/** The buyer's orders page: which list it shows (the fetched orders, or the
    development list when the fetch fails or finds nothing) and the two status
    badges of each row. */
module BuyerOrders {
  import opened Wrappers
  import opened StatusLabels

  datatype PaymentSummary = PaymentSummary(id: string, paymentId: string, status: string, amount: real)

  datatype Order = Order(id: string, status: string, totalAmount: real, payments: seq<PaymentSummary>)

  /** The page state: the orders shown and the loading flag. */
  datatype PageState = PageState(orders: seq<Order>, loading: bool)

  /** The order query's outcome: its rows (never null, as `data || []`
      makes sure), or a thrown error. */
  datatype FetchOutcome = Fetched(rows: seq<Order>) | Threw

  /** `loadOrders`: nothing without a user; otherwise a non-empty fetched
      list is shown as is, an empty or failed fetch falls back to the
      development list `fallback`, and loading stops on every path,
      including the early return. */
  function LoadOrders(state: PageState, user: Option<string>, fetch: FetchOutcome, fallback: seq<Order>): (r: PageState)
    ensures user.None? ==> r == state
    ensures user.Some? ==> !r.loading
    ensures user.Some? && fetch.Fetched? && fetch.rows != [] ==> r.orders == fetch.rows
    ensures user.Some? && (fetch.Threw? || fetch.rows == []) ==> r.orders == fallback
  {
    if user.None? then state
    else
      var loading := state.(loading := true);
      var shown := if fetch.Fetched? && |fetch.rows| > 0 then fetch.rows else fallback;
      loading.(orders := shown, loading := false)
  }

  /** Once a user is present the page never ends empty while the
      development list is non-empty: the "no orders yet" message cannot
      appear. */
  lemma SignedInPageNeverEmpty(state: PageState, user: Option<string>, fetch: FetchOutcome, fallback: seq<Order>)
    requires user.Some? && fallback != []
    ensures var r := LoadOrders(state, user, fetch, fallback);
            r.orders != [] && (r.orders == fallback || (fetch.Fetched? && r.orders == fetch.rows))
  {
  }

  /** The order badge of a row. */
  function OrderBadge(order: Order): (r: StatusInfo)
    ensures order.status in OrderStatusTable ==> r == OrderStatusTable[order.status]
    ensures order.status !in OrderStatusTable ==> r == StatusInfo(order.status, "gray")
    ensures r.color in Palette
    ensures r.text == order.status <==> order.status !in OrderStatusTable
  {
    FormatOrderStatus(order.status)
  }

  const NoPaymentBadge := StatusInfo("No disponible", "gray")

  /** The payment badge of a row: the first payment's status, or "No
      disponible" in gray when the order has no payments. */
  function PaymentBadge(order: Order): (r: StatusInfo)
    ensures r.color in Palette
    ensures order.payments == [] ==> r == NoPaymentBadge
    ensures order.payments != [] ==> r == FormatPaymentStatus(order.payments[0].status)
  {
    if |order.payments| > 0 then FormatPaymentStatus(order.payments[0].status) else NoPaymentBadge
  }

  /** Only the first payment matters: payments after it never change the
      badge. */
  lemma PaymentBadgeUsesFirstPayment(order: Order, first: PaymentSummary, more: seq<PaymentSummary>)
    ensures PaymentBadge(order.(payments := [first] + more)) == PaymentBadge(order.(payments := [first]))
  {
  }
}
