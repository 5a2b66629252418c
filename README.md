# Storefront checkout and payment reconciliation

A Dafny model of the decision logic in a digital-goods storefront. This logic sits between a
payment provider (Stripe), a CMS data layer (Payload) and a mail service (Resend). The model has three parts:

- **Checkout** (`PaymentRouter`, from `src/trpc/payment-router.ts`). `createSession` refuses an empty cart.
  It finds the listed products and keeps those with a truthy price reference, in find order.
  It stores an unpaid order owned by the caller, builds the provider's `line_items` (one per product,
  then a fixed fee entry), and sends the session request with metadata `{userId, orderId}`.
  It returns the provider's url, or no url when the provider fails; the order is kept either way.
  `pollOrderStatus` reads an order's paid flag, or fails with NOT_FOUND.
- **Webhook reconciliation** (`Webhooks`, from `src/webhooks.ts`). The handler works through a chain of guards:
  the signature (400), the metadata ids (400), the event type (any other type: 200), the user (404)
  and the order (404). After the guards it sets the order's `_isPaid` and sends a receipt.
  `Reconcile` gives the transition as a value, and `StripeWebhookHandler` carries it out step by step
  on the store class `Domain.Database`.
  On the success path the handler writes a response (200, or 500 when the send throws) and then
  falls through to a second `200` write. The model keeps every write in `responses`.
  The first write is the status the provider sees.
  The handler never checks that the order belongs to the event's user, and neither does the model.
- **User access policy** (`UserAccess`, from `dist/collections/Users.js`). The read, create, update and
  delete rules, the admin-panel `hidden` switch, and the `role` select field with its default.
  `Decide` applies a rule's result to one record, which turns the rules into an (actor, record)
  verdict.
  No rule restricts the `role` field itself, so a request that creates a user may set `role` to `admin`
  (`UserAccess.SignUpMayChooseAdmin`). Field-level checks defined outside this collection file are not part of this model.

`CheckoutFlow` joins the first two parts. The metadata that `createSession` sends comes back in the
completion event, and the webhook then marks exactly that order paid.

The payment provider, the mailer and the store's id allocation are parameters:
- `Delivery` is the outcome of the signature check.
- `ProviderReply` is the outcome of session creation.
- `ReceiptOutcome` says whether the send returned or threw.
- `newOrderId` is the id the store assigns to the new order.
- `serverUrl` stands for the configured public server URL.

## Model

| member | source | states |
|---|---|---|
| `Domain.FindByIds` | src/trpc/payment-router.ts:21-28 | the `id in productIds` query returns exactly the stored products whose id is listed, each no more often than it is stored |
| `Domain.FindByIdsAppend` | src/trpc/payment-router.ts:21-28 | the query keeps store order: querying a concatenation of stores concatenates the answers |
| `Domain.FindByIdsSameIds` | src/trpc/payment-router.ts:21-28 | a cart that repeats or reorders ids finds the same products, in the same order |
| `PaymentRouter.FilterPriced` | src/trpc/payment-router.ts:30-32 | exactly the found products with a truthy `priceId` are kept, none more often than found, and a list that is all priced comes back unchanged |
| `PaymentRouter.FilterPricedAppend` | src/trpc/payment-router.ts:30-32 | the filter keeps find order: filtering a concatenation concatenates the filtered parts |
| `PaymentRouter.BuildLineItems` | src/trpc/payment-router.ts:43-58 | `line_items` has one entry per priced product plus one; entry i is product i's price with quantity 1; the last is the fee price with quantity 1 and quantity adjustment disabled |
| `PaymentRouter.CreateSession` | src/trpc/payment-router.ts:9-79 | an empty cart gives BAD_REQUEST with no order and no request; otherwise exactly one order is added, unpaid, owned by the caller, listing the priced products' ids; the request carries those line items, metadata with the caller's and the order's ids, and the redirect URLs; the url is the provider's, or none on failure with the order kept; the new order then polls as unpaid |
| `PaymentRouter.PollOrderStatus` | src/trpc/payment-router.ts:80-101 | NOT_FOUND exactly when no order has the id; otherwise that order's paid flag; being a function, it changes nothing |
| `Webhooks.Reconcile` | src/webhooks.ts:12-111 | a bad signature gives 400 with no lookup and no change; missing or empty metadata ids give 400 with no change, whatever the event type; another event type gives 200 with no change; a missing user or order gives 404 with no change and no receipt; otherwise the calls are, in order, the user lookup, the order lookup, the paid update and one receipt to the user's email listing the order's id and products; exactly the event's order becomes paid (owner and products kept), and the responses are 200 or 500 (send threw) followed by 200; no order is added or removed and no paid order becomes unpaid |
| `Webhooks.StripeWebhookHandler` | src/webhooks.ts:12-111 | the guard chain, update and send performed on the store give exactly `Reconcile`'s responses, calls and orders; users and products are untouched; the status is the first response written |
| `Webhooks.ReplayIsIdempotent` | src/webhooks.ts:79-107 | delivering the same event again leaves the orders as the first delivery left them, whatever either send does, and sends the receipt again |
| `Webhooks.OwnerIsNotChecked` | src/webhooks.ts:51-89 | for every store and delivery, giving the event's order any other owner changes neither the responses, nor the calls, nor whether that order ends up paid, nor any other order |
| `CheckoutFlow.CompletionPaysSessionOrder` | src/trpc/payment-router.ts:66-69 | a completion event carrying the metadata a session was created with passes the metadata guard, pays exactly that order and leaves every other order unchanged, when both ids are non-empty and exist |
| `CheckoutFlow.CheckoutThenComplete` | src/webhooks.ts:79-107 | checkout for a non-empty cart, then the completion event for its session: the new order polls as paid, and the status is 200, or 500 when the receipt send throws |
| `UserAccess.AdminAndUser` | dist/collections/Users.js:5-14 | read access is unrestricted exactly for admins; for any other signed-in user it is the filter `id equals` their own id; an anonymous request raises |
| `UserAccess.CreateAccess` | dist/collections/Users.js:31 | create is granted to every request, including anonymous ones |
| `UserAccess.UpdateAccess` | dist/collections/Users.js:32-35 | update is granted if and only if the user's role is `admin`, denied to other signed-in users, and raises for anonymous requests |
| `UserAccess.DeleteAccess` | dist/collections/Users.js:36-39 | delete is granted if and only if the user's role is `admin`, denied to other signed-in users, and raises for anonymous requests |
| `UserAccess.Hidden` | dist/collections/Users.js:42-45 | the collection is hidden in the admin panel if and only if the user's role is not `admin` |
| `UserAccess.Decide` | dist/collections/Users.js:29-40 | per record: allowed exactly for create, for admins, or for a signed-in non-admin reading their own record; a fault exactly for a non-create operation by an anonymous request |
| `UserAccess.HiddenExactlyForNonAdmins` | dist/collections/Users.js:32-45 | the panel hides the collection from exactly those users denied update and delete, and a hidden user may read exactly their own record |
| `UserAccess.ResolveRole` | dist/collections/Users.js:69-81 | a missing role becomes `user`; a given role is kept when it is `admin` or `user` and rejected otherwise; a stored role is always one of the two |
| `UserAccess.DefaultRoleIsNotAdmin` | dist/collections/Users.js:69-81 | a user stored with the default role has the collection hidden and is denied update and delete |
| `UserAccess.SignUpMayChooseAdmin` | dist/collections/Users.js:29-81 | any request may create a user, a given role `admin` is stored as given, and the stored user is then allowed every operation on every record |

## Left out

- Signature verification (`stripe.webhooks.constructEvent`) is a foreign library with HMAC internals. Its outcome is the `Delivery` parameter.
- Stripe session creation is a foreign call. Its outcome is the `ProviderReply` parameter, and a url the provider itself leaves null is not modelled.
- Receipt sending and the receipt email's HTML rendering are external. Only whether the send threw is kept (`ReceiptOutcome`). The `SendReceipt` call records the recipient, order id and product ids, but not the date.
- Response bodies (error messages, the mailer's returned data) are not modelled; only statuses are.
- The second response write at src/webhooks.ts:110, after the receipt's own response, changes nothing the provider receives. What Express does with it is not modelled.
- The CMS client's internals are not modelled: the `find` page size and default sort, and `depth: 2` population.
- Order ids are allocated by the store. The model takes the new id as a parameter and requires that it is unused.
- Environment values (server URL, API keys, webhook secret) are not modelled. The server URL is a parameter; the secrets are inside the signature oracle.
- `console.log` output is not modelled.
- Request parsing, input schemas and the authentication wiring of the router are not modelled. The caller of `createSession` is an authenticated user id.
- `pollOrderStatus` takes no caller, because the code never compares the order's owner with the caller.
- Concurrent duplicate webhook deliveries are out of scope because the model has no concurrency. Sequential replay is covered by `Webhooks.ReplayIsIdempotent`.
- The users collection's verification-email template (`auth.verify`), `defaultColumns` and the fields' constant `admin.condition` switches are not modelled. They are presentation settings with no decision logic.
- `UserAccess.ResolveRole` models the meaning of the field declaration (default `user`, options `admin` and `user`). It does not model the CMS's own validation code.
