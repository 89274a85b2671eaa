# Marketplace checkout and payment synchronisation — a Dafny model

This project models the small deterministic rules inside a marketplace web
application built on a hosted Postgres backend and the MercadoPago payment
gateway:

- the **checkout input masks**: the card number, expiry date and CVC fields of
  the payment page, and the price field of the seller's new-product form;
- the **shopping cart**: changing a quantity with a floor of one, removing an
  item, and the subtotal, 16% tax and total;
- the **status displays**: the payment and order status tables of the orders
  library, the seller page's badges, the buyer page's list selection and row
  badges, and the confirmation page's reading of the gateway's redirect;
- the **role checks** `isAdmin` and `isSeller`;
- the **payment synchronisation**: `updatePaymentStatus`, `createPaymentEvent`,
  `createOrder` and `processWebhook` over an abstract database, and the
  webhook endpoint's `POST` handler that decides the HTTP answer.

Everything is pure functions over immutable datatypes. Strings are
`seq<char>`, money is `real`, and quantities are `int`.

The database is a value of `Store.Db`. It has four tables held as sequences of
rows in insertion order, plus a counter for the ids the database generates.
It also has the set of tables whose writes the database refuses. That set
stands for every error result the client library can return on an insert or
update: a constraint violation, a permission error or an outage. Each store
operation returns a `Step`: the database after its writes, and either its
result or the failure it threw. A failure carries the database too, because
`createOrder` can fail after it has already written the order row.

`Store.Valid` states that every id in the database, and every reference to
one, lies below the id counter. Every write of the model keeps it, so an id
the database generates is never already in use.

The client library's `.eq(column, key).single()` query is not part of this
model. It is taken as an explicit assumption, `Lookup.SingleIndex`: the query
succeeds with the one matching row and fails when no row or several rows
match. For an `update … .single()` that fails, the assumption is that nothing
is written.

Modules: `Wrappers` (Option, Result, JavaScript truthiness of strings),
`Lookup`, `Masks`, `PaymentForm`, `ProductForm`, `Cart`, `StatusLabels`,
`SellerOrders`, `BuyerOrders`, `Confirmation`, `Roles`, `Store`, `Sync`,
`WebhookRoute`.

Two behaviours of the synchronisation code are easy to miss:

- `createOrder` does not delete the order row when the item insert fails. It
  logs and rethrows, so the order row stays without items
  (`Sync.CreateOrderPartialFailure`).
- `processWebhook` never touches an order row. A payment notification changes
  one payment and appends one event, and the order's status stays as it was
  (`Sync.PaymentNotificationEffect`).

Some behaviour may surprise a reader of the pages:

- The price sanitiser keeps any number of dots.
- The confirmation page shows "Pago Completado" even beside a rejected payment.
- On the buyer page, a signed-in user never sees the "no orders yet" message,
  because an empty result is replaced by the development list.
- A duplicated gateway notification records a second event.

## Model

| member | source | states |
|---|---|---|
| Lookup.SingleIndex | apps/web/lib/mercadopago/supabase-integration.ts:127-131 | the single-row query returns an index exactly when that row is the only one whose column equals the key; otherwise no row is returned |
| Lookup.SingleIndexFinds | apps/web/lib/mercadopago/supabase-integration.ts:127-136 | when exactly one row matches, the query finds that row whatever the other rows hold |
| Masks.Keep | apps/web/app/checkout/payment/page.tsx:57 | removing every character outside a class keeps exactly the characters of the input that are in the class, no others, and an input already inside the class is returned unchanged |
| Masks.KeepAppend | apps/web/app/checkout/payment/page.tsx:57 | the filter keeps characters in their original order: filtering a concatenation is the concatenation of the filtered parts |
| Masks.KeepNoNewCharacters | apps/web/app/checkout/payment/page.tsx:57 | the filter never adds a character: the output's multiset of characters is contained in the input's |
| Masks.Prefix | apps/web/app/checkout/payment/page.tsx:57 | `substring(0, n)` gives a prefix of the input of length min(length, n) |
| Masks.CardNumberMask | apps/web/app/checkout/payment/page.tsx:57 | the card number holds only digits and white space, has at most 19 characters, is the 19-character prefix of the filtered input and never contains a character (a space in particular) more often than the input |
| Masks.LeadingDigits | apps/web/app/checkout/payment/page.tsx:64 | the greedy `\d{0,2}` term matches the longest run of leading digits up to the bound |
| Masks.SlashAfterTwoDigits | apps/web/app/checkout/payment/page.tsx:64 | the slash replacement, on any string, inserts one `/` at index 2 exactly when the first three characters are digits, and otherwise returns the string unchanged |
| Masks.SlashAfterDigits | apps/web/app/checkout/payment/page.tsx:61-64 | on at most four digits the slash replacement gives `d`, `dd`, `dd/d` or `dd/dd`, and dropping the slash gives the digits back |
| Masks.ExpiryMask | apps/web/app/checkout/payment/page.tsx:61-64 | the expiry keeps at most 4 digits; with at most 2 digits it is exactly those digits with no slash; with 3 or 4 it has the slash at index 2 and length digit count + 1 (at most 5) |
| Masks.CvcMask | apps/web/app/checkout/payment/page.tsx:68 | the CVC is all digits, at most 4 of them, and a prefix of the input's digits |
| Masks.PriceMask | apps/web/app/dashboard/seller/products/new/page.tsx:29 | the price is exactly the input with every character other than `0-9` and `.` deleted, so it keeps every digit and dot in their original order (with `Masks.Keep` and `Masks.KeepAppend`), adds nothing, and returns an input of such characters unchanged |
| Masks.CardNumberMaskIdempotent | apps/web/app/checkout/payment/page.tsx:57 | masking a masked card number changes nothing |
| Masks.ExpiryMaskIdempotent | apps/web/app/checkout/payment/page.tsx:61-64 | masking a masked expiry changes nothing |
| Masks.CvcMaskIdempotent | apps/web/app/checkout/payment/page.tsx:68 | masking a masked CVC changes nothing |
| Masks.PriceMaskIdempotent | apps/web/app/dashboard/seller/products/new/page.tsx:29 | sanitising a sanitised price changes nothing |
| Masks.PriceMaskKeepsSeveralDots | apps/web/app/dashboard/seller/products/new/page.tsx:29 | a price with several dots such as `1.2.3` passes through unchanged |
| PaymentForm.HandleChange | apps/web/app/checkout/payment/page.tsx:51-73 | an edit sets only the named field and every other field keeps its value; the card number, expiry and CVC fields store the typed value after their own mask, so the masks' contracts carry over; every other field is stored verbatim |
| PaymentForm.HandleChangeStable | apps/web/app/checkout/payment/page.tsx:51-73 | feeding a field's stored value back through the handler leaves the form unchanged |
| PaymentForm.EditsOfDifferentFieldsCommute | apps/web/app/checkout/payment/page.tsx:51-73 | edits to two different fields give the same form in either order |
| PaymentForm.InitialFieldsPersist | apps/web/app/checkout/payment/page.tsx:28-38 | no edit removes one of the form's initial fields |
| ProductForm.HandleChange | apps/web/app/dashboard/seller/products/new/page.tsx:25-31 | an edit sets only the named field and every other field keeps its value; the price field stores the sanitised input, every other field is stored verbatim |
| ProductForm.HandleChangeStable | apps/web/app/dashboard/seller/products/new/page.tsx:25-31 | re-entering a stored value leaves the form unchanged |
| ProductForm.Submit | apps/web/app/dashboard/seller/products/new/page.tsx:38-59 | submit ends without an error exactly when there is a user, the user is a seller, and title and price are non-empty; the error is one of the three messages; loading starts only on success |
| ProductForm.SubmitClearsPreviousError | apps/web/app/dashboard/seller/products/new/page.tsx:40 | the previous error never affects the outcome of a submit |
| ProductForm.SubmitCheckOrder | apps/web/app/dashboard/seller/products/new/page.tsx:42-56 | checks run in the order user, then seller role, then required fields, and the first failing check's message is the one shown |
| ProductForm.BlankTitleAccepted | apps/web/app/dashboard/seller/products/new/page.tsx:53-56 | any non-empty title made only of blanks, with any non-empty price, passes the required-field check |
| Cart.ChangeQuantity | apps/web/app/checkout/cart/page.tsx:51-61 | every item with the id gets quantity max(1, old + change); items with other ids are identical; the cart keeps its length and order, and every field but the quantity is kept |
| Cart.UntouchedTail | apps/web/app/checkout/cart/page.tsx:52-60 | a quantity change for an id no item has leaves the cart unchanged |
| Cart.QuantitiesStayPositive | apps/web/app/checkout/cart/page.tsx:55 | if every quantity is at least 1 before a change, every quantity is at least 1 after it |
| Cart.DecrementAtOneKeepsItem | apps/web/app/checkout/cart/page.tsx:55 | decrementing an item at quantity 1 leaves that item exactly as it was, still in the cart |
| Cart.RemoveItem | apps/web/app/checkout/cart/page.tsx:63-65 | the result holds exactly the items whose id differs from the given one, and removing an absent id leaves the cart unchanged |
| Cart.RemoveItemAppend | apps/web/app/checkout/cart/page.tsx:64 | removal keeps the survivors in their original order: it distributes over concatenation |
| Cart.Subtotal | apps/web/app/checkout/cart/page.tsx:75-78 | the subtotal is 0 for an empty cart and the line total price × quantity for one item; with `Cart.SubtotalAppend` this fixes it as the sum of the line totals |
| Cart.Tax | apps/web/app/checkout/cart/page.tsx:80-82 | the 16% tax is 0 on a zero subtotal and lies between 0 and the subtotal whenever the subtotal is not negative |
| Cart.Total | apps/web/app/checkout/cart/page.tsx:84-85 | the total is 1.16 × the subtotal, and at least the subtotal whenever the subtotal is not negative |
| Cart.SubtotalAppend | apps/web/app/checkout/cart/page.tsx:75-78 | the subtotal of a concatenation is the sum of the subtotals |
| Cart.TotalIsSubtotalWithTax | apps/web/app/checkout/cart/page.tsx:75-85 | tax is 0.16 × subtotal, total is 1.16 × subtotal, and an empty cart's subtotal and total are 0 |
| Cart.AmountsNonNegative | apps/web/app/checkout/cart/page.tsx:75-85 | with non-negative prices and quantities, 0 ≤ subtotal ≤ total |
| Cart.ChangeQuantitySubtotal | apps/web/app/checkout/cart/page.tsx:51-78 | with unique ids, a quantity change moves the subtotal by the price times the change in quantity |
| Cart.RemoveItemSubtotal | apps/web/app/checkout/cart/page.tsx:63-78 | with unique ids, removing an item lowers the subtotal by exactly its price × quantity |
| StatusLabels.TablesWellFormed | apps/web/lib/marketplace/orders.ts:166-199 | every colour in both tables is one of yellow, green, blue, orange, red, gray and purple, and no label equals its status key |
| StatusLabels.Lookup | apps/web/lib/marketplace/orders.ts:179 | a listed status gets its table entry; an unlisted one gets itself as the label in gray; on a well-formed table the colour is in the palette and the label repeats the status exactly when it is unlisted |
| StatusLabels.FormatPaymentStatus | apps/web/lib/marketplace/orders.ts:166-180 | a listed status shows its payment-table entry; the colour is always in the palette; an unlisted status shows itself in gray; the label equals the status exactly when the status is unlisted |
| StatusLabels.FormatOrderStatus | apps/web/lib/marketplace/orders.ts:185-199 | a listed status shows its order-table entry; the colour is always in the palette; an unlisted status shows itself in gray; the label equals the status exactly when the status is unlisted |
| StatusLabels.PaymentStatusEntries | apps/web/lib/marketplace/orders.ts:167-177 | the payment table lists exactly the nine gateway statuses, each with its label and colour: Pendiente/yellow, Aprobado/green, Autorizado/blue, En proceso/blue, En mediación/orange, Rechazado/red, Cancelado/gray, Reembolsado/purple, Contracargo/red |
| StatusLabels.OrderStatusEntries | apps/web/lib/marketplace/orders.ts:186-196 | the order table lists exactly the nine order statuses, each with its label and colour: Pendiente/yellow, Pago pendiente/yellow, Pagada/green, Procesando/blue, Enviada/blue, Entregada/green, Cancelada/gray, Reembolsada/purple, Pago fallido/red |
| StatusLabels.TablesAreDistinct | apps/web/lib/marketplace/orders.ts:166-199 | the two tables label `cancelled` differently and agree on a status neither lists |
| SellerOrders.KnownStatusBadges | apps/web/app/dashboard/seller/orders/page.tsx:128-156 | pending, processing, completed and cancelled show yellow, blue, green and red badges with Pendiente, En proceso, Completada and Cancelada |
| SellerOrders.UnknownStatusFallback | apps/web/app/dashboard/seller/orders/page.tsx:128-156 | a status gets the gray badge, and its text is the status itself, exactly when it is not one of the four known statuses |
| SellerOrders.KnownBadgesDistinct | apps/web/app/dashboard/seller/orders/page.tsx:128-141 | the four known statuses have pairwise different badge classes |
| SellerOrders.StatusBadgeClass | apps/web/app/dashboard/seller/orders/page.tsx:128-141 | a status gets the gray badge exactly when it is not pending, processing, completed or cancelled |
| SellerOrders.StatusText | apps/web/app/dashboard/seller/orders/page.tsx:143-156 | a status is shown as itself exactly when it is not one of the four known statuses |
| SellerOrders.LoadOrders | apps/web/app/dashboard/seller/orders/page.tsx:36-122 | the authorised flag is the seller check's answer; on a failed check orders and loading are left as they were; on a passed check the orders are shown and loading stops |
| SellerOrders.OrdersOnlyForSellers | apps/web/app/dashboard/seller/orders/page.tsx:37-42 | from the initial page, orders appear exactly for a user whose profile role is seller, and the page keeps loading exactly when the check failed |
| BuyerOrders.LoadOrders | apps/web/app/dashboard/orders/page.tsx:53-186 | without a user nothing changes; with one, loading ends on every path, a non-empty fetched list is shown as is, and an empty or failed fetch falls back to the development list |
| BuyerOrders.SignedInPageNeverEmpty | apps/web/app/dashboard/orders/page.tsx:59-182 | once a user is present and the development list is non-empty, the shown list is non-empty and is either the fetched rows or that list |
| BuyerOrders.OrderBadge | apps/web/app/dashboard/orders/page.tsx:259 | a row's order badge is the order-status table entry of its status, or the status itself in gray when unlisted; the colour is always in the palette |
| BuyerOrders.PaymentBadge | apps/web/app/dashboard/orders/page.tsx:260-262 | a row's payment badge is the payment-status entry of the first payment, or "No disponible" in gray when there are none |
| BuyerOrders.PaymentBadgeUsesFirstPayment | apps/web/app/dashboard/orders/page.tsx:260-262 | later payments never change the payment badge |
| Confirmation.DetailsFromParams | apps/web/app/checkout/confirmation/page.tsx:40-55 | the order id is `merchant_order_id` when that is non-empty; the method is `payment_type` or "MercadoPago"; the status is `status` or "approved" when missing or empty; the payment id is `payment_id` as given |
| Confirmation.Classify | apps/web/app/checkout/confirmation/page.tsx:104-129 | the status reads as confirmed exactly for approved, in progress exactly for pending or in_process, and as rejected for any other status |
| Confirmation.Title | apps/web/app/checkout/confirmation/page.tsx:124-129 | each reading has its own title: "¡Pedido Confirmado!", "Pedido en Proceso" or "Pago Rechazado", one title for each reading and no other |
| Confirmation.Render | apps/web/app/checkout/confirmation/page.tsx:104-147 | the header's reading is the classification of the payment status and its title is that reading's title; the payment-id line is shown exactly when `payment_id` is present and non-empty, with that id; the badge is always "Pago Completado"; the method is shown as given |
| Confirmation.HeaderClassification | apps/web/app/checkout/confirmation/page.tsx:104-129 | approved gives "¡Pedido Confirmado!"; pending or in_process gives "Pedido en Proceso"; any other status gives "Pago Rechazado"; each holds in both directions |
| Confirmation.MissingStatusConfirms | apps/web/app/checkout/confirmation/page.tsx:54 | a missing or empty `status` parameter is read as a confirmed order |
| Confirmation.BadgeIgnoresStatus | apps/web/app/checkout/confirmation/page.tsx:145-147 | the "Pago Completado" badge does not depend on the payment status |
| Roles.LookupRole | packages/features/auth/hooks/use-auth-role.ts:10-16 | with exactly one profile row for the user, the lookup returns that row's role; without exactly one such row there is no role |
| Roles.HasRole | packages/features/auth/hooks/use-auth-role.ts:7-29 | a role check is false without a user and otherwise true exactly when the user has a single profile row whose role equals the checked role |
| Roles.IsAdmin | packages/features/auth/hooks/use-auth-role.ts:7-17 | `isAdmin` holds exactly when there is a user with a single profile row whose role is exactly 'admin' |
| Roles.IsSeller | packages/features/auth/hooks/use-auth-role.ts:19-29 | `isSeller` holds exactly when there is a user with a single profile row whose role is exactly 'seller' |
| Roles.NoProfileNoRole | packages/features/auth/hooks/use-auth-role.ts:8-28 | no user, no profile row or a null role makes both checks false |
| Roles.AdminAndSellerExclusive | packages/features/auth/hooks/use-auth-role.ts:16-28 | for one state of the profiles table, `isAdmin` and `isSeller` are never both true |
| Sync.UpdatePaymentStatus | apps/web/lib/mercadopago/supabase-integration.ts:78-109 | succeeds exactly when one payment has the gateway id and the write is accepted; it then sets that row's status and replaces its metadata, and changes nothing else; on failure nothing is written, and a missing or repeated id fails with the single-row error; every id stays below the next generated id |
| Sync.CreatePaymentEvent | apps/web/lib/mercadopago/supabase-integration.ts:114-159 | fails, writing nothing, unless exactly one payment has the gateway id and the events table accepts the insert; otherwise it appends one event whose payment reference is that row's internal id; every id stays below the next generated id |
| Sync.ItemRows | apps/web/lib/mercadopago/supabase-integration.ts:200-206 | one item row per input, in order, each with the new order's id, the input's product, quantity and unit price, and total = quantity × unit price |
| Sync.CreateOrder | apps/web/lib/mercadopago/supabase-integration.ts:164-222 | a refused order insert writes nothing; otherwise the order row is appended with a fresh id no earlier item or payment refers to, and then either all item rows are appended and the order is returned, or the item insert's failure is returned with the order row left in place; every id stays below the next generated id |
| Sync.ProcessWebhook | apps/web/lib/mercadopago/supabase-integration.ts:227-266 | a missing action, data or data.id throws and writes nothing; an action other than the two payment actions writes nothing and acknowledges; every id stays below the next generated id |
| Sync.PaymentNotificationEffect | apps/web/lib/mercadopago/supabase-integration.ts:236-254 | a successful payment notification changes one payment row, whose status becomes data.status or 'pending' and whose metadata becomes `{raw: data}` with nothing merged; it appends one event with the action as type and data.status or 'unknown' as status; orders and items are untouched |
| Sync.PaymentNotificationSucceeds | apps/web/lib/mercadopago/supabase-integration.ts:236-261 | a payment notification succeeds exactly when one payment has the id and neither the payments nor the events table refuses the write |
| Sync.UnknownPaymentWritesNothing | apps/web/lib/mercadopago/supabase-integration.ts:238-252 | when the status update finds no single payment, no event is recorded, nothing is written and the single-row error propagates |
| Sync.UpdateWithoutEvent | apps/web/lib/mercadopago/supabase-integration.ts:238-254 | the two writes are not atomic: if the event insert is refused, the payment keeps its new status and the call still throws |
| Sync.DuplicateDeliveryDuplicatesEvents | apps/web/lib/mercadopago/supabase-integration.ts:236-254 | delivering the same notification twice leaves the payments as after one delivery but appends two events |
| Sync.MissingStatusDefaults | apps/web/lib/mercadopago/supabase-integration.ts:240-252 | without a status, the payment is stored as 'pending' and the event as 'unknown' |
| Sync.CreateOrderPartialFailure | apps/web/lib/mercadopago/supabase-integration.ts:194-216 | when the item insert is refused the call fails with that error, the order row stays, the item table is unchanged, and on a valid database no item carries the new order's id |
| Sync.OrderTotalNotChecked | apps/web/lib/mercadopago/supabase-integration.ts:183-210 | the stored order total is what the caller passed, even when it differs from the sum of the item totals |
| WebhookRoute.RecordError | apps/web/app/api/webhooks/mercadopago/route.ts:88-101 | the catch block writes one 'webhook.error' event with status 'error', carrying the failure and the notification and referring to the payment with data.id, exactly when data.id is present, exactly one payment has it and the events table accepts the insert; otherwise nothing is written |
| WebhookRoute.Post | apps/web/app/api/webhooks/mercadopago/route.ts:23-113 | the answer is 200 or 400; it is 400 exactly for a parsed body without action or data, carrying "Formato de webhook inválido", and then nothing is written; it acknowledges exactly when processing succeeds, with the processing's database; an unparsable or `null` body is a 200 error that writes nothing; a processing failure is a 200 error carrying that failure, after the error event of `RecordError` on the processing's database; every id stays below the next generated id |
| WebhookRoute.FailureAnsweredWith200 | apps/web/app/api/webhooks/mercadopago/route.ts:105-111 | a processing failure is answered with status 200 carrying that failure, so the gateway does not retry |
| WebhookRoute.RecordingDoesNotChangeResponse | apps/web/app/api/webhooks/mercadopago/route.ts:97-111 | whether recording the error succeeds never changes the response |
| WebhookRoute.MissingIdIsA200Error | apps/web/app/api/webhooks/mercadopago/route.ts:31-111 | a body with data but no data.id passes the route's check, fails in processing, records nothing and ends as a 200 error |
| WebhookRoute.MalformedIs400 | apps/web/app/api/webhooks/mercadopago/route.ts:31-36 | a body missing action or data gets 400 with the invalid-format message and writes nothing |
| WebhookRoute.RefusedUpdateLeavesErrorEvent | apps/web/app/api/webhooks/mercadopago/route.ts:88-96 | when the payment update is refused but the payment exists, the error event is recorded against that payment |

## Left out

- Rendering, navigation, `setTimeout` delays, loading spinners and alerts are left out. They are presentation, not behaviour. The development lists are parameters (`loaded`, `fallback`).
- Date formatting (`Intl.DateTimeFormat`) and `toFixed(2)` are left out. They are locale and number-formatting libraries.
- The pages compute money in binary floating point. The model uses exact `real`, so `0.16` is exact and no rounding is modelled.
- The random `ORD-nnnnnn` order id of the confirmation page is nondeterministic. It is the parameter `generatedId`.
- `substring` counts UTF-16 code units, while the model counts code points. The two agree on the masks' outputs, because every character kept by a truncating mask is an ASCII digit or a white-space character of the Basic Multilingual Plane.
- The two status tables are plain finite maps. The model does not include the inherited object keys (such as `constructor`) that a JavaScript object lookup would also find.
- The product form's `images` array and `handleImageUpload` are left out. The upload only logs, and nothing else changes the array. The product insertion is left out because the source leaves it commented out.
- The payment page's `handleSubmit` is left out. It is a timer followed by a redirect.
- The cart's `handleProceedToCheckout` is left out. It is a timer followed by a redirect.
- `updated_at` timestamps are left out. They come from the clock.
- The query wrappers are left out: `createPaymentRecord`, `getUserOrders`, `getOrderById`, `getOrderPayments`, `getPaymentDetails`, `getSellerSales`, `updateOrderStatus` and `getPaymentInfo`. They are single calls into the client library. `getUserOrders` appears only as its outcome, `BuyerOrders.FetchOutcome`.
- The webhook route's non-synchronising branch is left out. It calls the gateway SDK and only logs, and it is unreachable because `syncWithSupabase` is the constant `true` (apps/web/lib/mercadopago/config.ts:39).
- The `GET` health check is left out. It only reports configuration.
- The gateway SDK, preference creation, the payment widget and the create-payment route are left out. They are foreign calls and network I/O.
- The text of a database error is not modelled. Whether the client library's error object is an `Error` instance depends on its version, so the 200 answer carries the failure value (`Store.Failure`) instead of its message string.
- The kind of database failure is not modelled either. All insert and update errors are one set of refused tables, so two errors on the same table cannot be told apart.
- Concurrency is left out: concurrent webhook deliveries and the interleaving of the order and item inserts. The code guarantees nothing about them.
- The seller dashboard stub (apps/web/app/dashboard/seller/page.tsx) is not part of this model. It has no logic.
