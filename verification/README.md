# ecommerce-backend: business rules of the controllers, in Dafny

This project models the rule layer of an Express/Prisma e-commerce backend and proves
properties of the model. It covers these parts:

- **Payment reconciliation.** Creating a Stripe checkout session for an order, and the
  Stripe webhook. The webhook authenticates the delivery, then updates the order,
  payment and refund tables according to the event type.
- **Order placement.** An order is created from the caller's cart. The caller can list
  their own orders and read one by id. An administrator can overwrite an order's status.
- **Cart, wishlist and conversations.** The cart merges repeated adds of a product into
  one line and lists the lines with their total. The wishlist allows at most one entry
  per product. A conversation between a buyer and a product's seller is found, or else
  created.
- **Fixed-window rate limiter.** It has a per-key counter store and a periodic cleanup sweep.
- **Pagination arithmetic.** It clamps the query values and computes the skip, the page
  count and the next/previous flags.

The database is one `Db` object (`tables.dfy`), with one map from primary key to record
per table, except the order items, which are kept inside their order. Its `Valid()`
predicate collects the integrity rules:

- the foreign keys;
- the unique indexes the handlers look rows up by (`findUnique`): payment-intent id and
  charge id;
- the rules the handlers keep themselves: positive cart quantities, every order's total
  equal to the sum of its items, distinct idempotency keys (each a fresh `uuid()`),
  and at most one cart line per (user, product), one
  wishlist entry per (user, product) and one conversation per (buyer, seller, product).
  The last three are kept only by a `findFirst` followed by an insert or an update.

Every state-changing handler requires `Valid()` and ensures it again. Its `modifies`
clause names only the tables it writes, so every other table is unchanged.

Money is in integer cents throughout. The following are inputs of the model, not things
it computes:

- the clock (`now`) and fresh ids and idempotency keys;
- the order in which a query returns rows (`listing`);
- everything Stripe answers: the session id, the latest charge of a payment intent, and
  whether a signature verifies.

A store write that the database would reject gives the handler's catch-all 500 and no
change. Such writes are an update or delete of a missing row, an insert that violates a
foreign key, and a duplicate charge id. The writes of one webhook event run in one
transaction, so a rejected write there changes none of the three tables.

The webhook is specified by the ghost function `PaymentController.Webhook` over a `Ledger`
value (orders, payments, refunds). `PaymentController.HandleWebhook` performs the same
steps on the store and is proved equal to it.

Some behaviours of the code are shown by lemmas as they are; they are not corrected:

- A completed checkout without a payment intent is stored with no intent id. The upsert
  then looks for the key `""`, so each redelivery creates another payment
  (`CheckoutWithoutIntentPaysTwice`). This assumes the schema has no unique index on
  `Payment.orderId`; with one, the second create would be rejected with a 500.
- Redelivering `charge.refunded` records another refund (`RefundRedeliveryRecordsTwice`).
  This assumes the schema has no unique index on `Refund.stripeRefundId`; with one, a second
  delivery carrying the same refund id would be rejected with a 500.
- The checkout session charges the products' current prices, not the prices stored on the
  order (`RepricedProductChangesCharge`).
- `sendMessage` does not check that the sender takes part in the conversation.
- `createCheckoutSession` checks neither that the caller owns the order nor that the order
  is still unpaid. Any authenticated user can have a session created for any order, which
  overwrites the order's `stripeSessionId`. `CreateCheckoutSession` takes no caller for
  this reason.
- Placing an order writes the order and then clears the cart in a separate write. A failure
  in between leaves the order in place and the cart as it was, and the caller gets a 500
  (`clearFails`).

## Model

| member | source | states |
|---|---|---|
| Common.ToUpper | src/controllers/payment.controller.ts:90 | the currency keeps its length; each ASCII lower-case letter becomes the capital at the same place in the alphabet, and every other character is kept |
| Pagination.NumberOr | src/utils/pagination.ts:19-20 | `Number(v) \|\| d`: an absent or zero value gives the default, any other value is kept |
| Pagination.GetPaginationParams | src/utils/pagination.ts:18-23 | page is at least 1 and defaults to 1; limit lies in 1..100, defaults to 20, is clamped to 100 above and to 1 below |
| Pagination.GetSkip | src/utils/pagination.ts:28-30 | the skip is non-negative for page ≥ 1 and zero on the first page |
| Pagination.PagesTile | src/utils/pagination.ts:28-30 | page p + 1 starts exactly `limit` rows after page p |
| Pagination.TotalPages | src/utils/pagination.ts:40 | the page count is the ceiling of total / limit: 0 for no rows, else (pages − 1) × limit < total ≤ pages × limit |
| Pagination.TotalPagesUnique | src/utils/pagination.ts:40 | any count with the ceiling property equals the computed page count |
| Pagination.CreatePaginationMeta | src/utils/pagination.ts:35-50 | echoes page, limit and total; totalPages is the ceiling; hasNext ⇔ page < totalPages and hasPrev ⇔ page > 1 |
| Pagination.FlagsMatchRows | src/utils/pagination.ts:47-48 | hasNext holds exactly when some row lies past the current page, hasPrev exactly when the page skips rows |
| Pagination.CreatePaginatedResponse | src/utils/pagination.ts:55-65 | the rows are returned unchanged next to the metadata for total, page and limit |
| RateLimit.KeyFor | src/middlewares/rateLimit.middleware.ts:22 | the key is the generator's key, else a non-empty IP, else `unknown` |
| RateLimit.Step | src/middlewares/rateLimit.middleware.ts:25-38 | an absent or expired entry is replaced by `Entry(1, now + windowMs)` and the request is admitted; a live entry admits exactly when its count is below max and then counts one more; a rejection leaves the entry as it was; with max ≥ 1 the count never exceeds max |
| RateLimit.Live | src/middlewares/rateLimit.middleware.ts:44-49 | the sweep keeps exactly the entries whose window has not ended, unchanged |
| RateLimit.LiveWindowAdmitsAtMost | src/middlewares/rateLimit.middleware.ts:33-38 | while a window is live, at most max − count more requests get through |
| RateLimit.WindowAdmitsAtMostMax | src/middlewares/rateLimit.middleware.ts:25-38 | one window admits at most max(1, max) requests, counting the one that opened it |
| RateLimit.SweepUnobservable | src/middlewares/rateLimit.middleware.ts:46 | an entry the sweep deletes would have been treated as absent by any later request |
| RateLimit.RateLimitStore.Limit | src/middlewares/rateLimit.middleware.ts:21-39 | the three branches (reset and admit; reject with 429 and no change; count + 1 and admit), no other key touched, and the bound count ≤ max preserved |
| RateLimit.RateLimitStore.Sweep | src/middlewares/rateLimit.middleware.ts:43-50 | the loop deletes exactly the entries with resetTime < now and leaves the others unchanged |
| CartController.ListingEmptyIffNoLines | src/controllers/order.controller.ts:70-72 | the caller's listing is empty exactly when the caller has no cart line |
| CartController.LinesTotalAppend | src/controllers/cart.controller.ts:34 | the cart total Σ price × quantity: the total of a listing plus one line is the listing's total plus that line's price × quantity |
| CartController.LinesTotalRemove | src/controllers/order.controller.ts:74-76 | taking any one line out of a listing lowers its total by exactly that line's price × quantity |
| CartController.LinesTotalAgree | src/controllers/cart.controller.ts:34 | the total reads only the listed lines |
| CartController.LinesTotalNonNegative | src/controllers/cart.controller.ts:34 | with no negative price or quantity, the total is never negative |
| CartController.LinesTotalPermutation | src/controllers/cart.controller.ts:34 | two listings of the same lines have the same total |
| CartController.ListingTotalIndependent | src/controllers/cart.controller.ts:28-34 | the cart total does not depend on the order in which the store returns the caller's lines |
| CartController.LineFor | src/controllers/cart.controller.ts:55-57 | the caller's line for a product, or proof that there is none |
| CartController.MergeRaisesTotal | src/controllers/cart.controller.ts:59-68 | merging q units into an existing line raises the caller's total by price × q |
| CartController.LinesTotalBump | src/controllers/cart.controller.ts:59-68 | adding q units to one line raises the total of a listing holding it once by price × q, and leaves a listing without it unchanged |
| CartController.NewLineRaisesTotal | src/controllers/cart.controller.ts:69-77 | a new line of q units raises the caller's total by price × q |
| CartController.ListItemsAndTotal | src/controllers/cart.controller.ts:22-42 | 401 without a caller; otherwise exactly the caller's lines, and a total of Σ price × quantity over them |
| CartController.AddItemToCart | src/controllers/cart.controller.ts:44-82 | 401; 400 for a missing product or quantity ≤ 0; an existing line grows by exactly the quantity (200); otherwise one new line (201), or 500 for an unknown product; one line per (user, product) kept |
| CartController.MergeKeepsCart | src/controllers/cart.controller.ts:59-68 | merging a positive quantity into a line keeps every line in the catalog, positive, and one per (user, product) |
| CartController.InsertKeepsCart | src/controllers/cart.controller.ts:55-77 | a new line for a catalog product the user has no line for keeps the cart rules |
| CartController.UpdateItemQuantity | src/controllers/cart.controller.ts:107-138 | 401; 400 for a missing id or quantity ≤ 0; only a line the caller owns is set to the quantity, anything else is a 500 with no change |
| CartController.RemoveItemFromCart | src/controllers/cart.controller.ts:84-105 | 401; 400 for a missing id; only a line the caller owns is deleted, anything else is a 500 with no change |
| OrderController.SnapshotLine | src/controllers/order.controller.ts:86-91 | an order item copies the line's product and quantity and the product's price and title |
| OrderController.Snapshot | src/controllers/order.controller.ts:85-92 | one order item per cart line, in the same order |
| OrderController.SnapshotTotal | src/controllers/order.controller.ts:74-76 | the total summed over the copied prices equals the cart total Σ price × quantity |
| OrderController.NewOrder | src/controllers/order.controller.ts:79-84 | a new order belongs to the caller, is PENDING, carries the given key and total, and has no payment yet |
| OrderController.OtherUsersLines | src/controllers/order.controller.ts:97-99 | the cleared cart keeps every line of other users unchanged and none of the caller's |
| OrderController.PlaceKeepsLedger | src/controllers/order.controller.ts:78-95 | an order whose total is the sum of its items, with catalog products and a fresh key, keeps the order rules |
| OrderController.ClearKeepsCart | src/controllers/order.controller.ts:97-99 | deleting a user's lines keeps the cart rules |
| OrderController.InsertOrder | src/controllers/order.controller.ts:79-95 | the orders table gains exactly the new order under its id, and the store stays valid |
| OrderController.ClearCart | src/controllers/order.controller.ts:97-99 | the cart loses exactly the caller's lines, and the store stays valid |
| OrderController.GetMyOrders | src/controllers/order.controller.ts:12-29 | 401; otherwise exactly the orders whose owner is the caller |
| OrderController.GetOrderById | src/controllers/order.controller.ts:31-57 | 401; 400 for a missing id; the order only when both its id and its owner match, else 404 |
| OrderController.CreateOrderFromCart | src/controllers/order.controller.ts:59-107 | 401; 400 and no change for an empty cart; otherwise a PENDING order with mirrored items and total Σ price × quantity, then the caller's lines cleared (201), or 500 with the order kept when the clearing fails |
| OrderController.UpdateOrderStatus | src/controllers/order.controller.ts:125-149 | 400 for a missing id or status; only the status of the named order changes; an unknown order is a 500 with no change |
| PaymentController.LineItemFor | src/controllers/payment.controller.ts:31-41 | a line item is in usd, named after the product, priced at the product's current price, for the item's quantity |
| PaymentController.LineItems | src/controllers/payment.controller.ts:31-41 | exactly one line item per order item, in the same order |
| PaymentController.ChargeMatchesOrderTotal | src/controllers/payment.controller.ts:38-40 | when no price changed since the order, the session charges exactly the order total |
| PaymentController.RepricedProductChangesCharge | src/controllers/payment.controller.ts:38 | an order of 2 × 500 whose product now costs 700 is charged 1400 |
| PaymentController.CheckoutRequest | src/controllers/payment.controller.ts:28-49 | the request carries the line items, `metadata.orderId` and the order's idempotency key |
| PaymentController.CreateCheckoutSession | src/controllers/payment.controller.ts:11-62 | 400 for a missing id and 404 for an unknown order, with no request and no write; otherwise the request above, and only the order's session id set (200), or 500 when Stripe fails |
| PaymentController.PaymentByIntent | src/controllers/payment.controller.ts:137 | the payment with a given intent id, or proof that there is none |
| PaymentController.PaymentByCharge | src/controllers/payment.controller.ts:169 | the payment with a given charge id, or proof that there is none |
| PaymentController.MarkPaid | src/controllers/payment.controller.ts:100-108 | the order becomes PAID with payment status SUCCEEDED, the event's intent id and the time; its owner, items, total, key and session are kept |
| PaymentController.Upsert | src/controllers/payment.controller.ts:109-126 | exactly one row is written: the one found by the intent key, which keeps its order and intent id, or else a new row for the order with the intent; it gets the amount, currency, charge and SUCCEEDED; every other payment is kept |
| PaymentController.MarkPaidAgain | src/controllers/payment.controller.ts:100-108 | marking an order paid twice equals marking it once at the later time |
| PaymentController.CompleteCheckout | src/controllers/payment.controller.ts:83-130 | no order id: nothing changes (200); otherwise the order is PAID with the intent and time, no payment is lost, refunds are untouched; a failure changes nothing (500) |
| PaymentController.IntentSucceeded | src/controllers/payment.controller.ts:132-149 | no payment for the intent: nothing changes (200); otherwise the update succeeds exactly when the new charge id is free for that payment, and then only that payment changes, to SUCCEEDED, taking the event's charge or keeping its own; a rejected update is a 500 with no change |
| PaymentController.IntentSucceededWithoutCharge | src/controllers/payment.controller.ts:137-146 | on consistent tables, an event without a latest charge always succeeds and only sets the payment to SUCCEEDED |
| PaymentController.IntentFailed | src/controllers/payment.controller.ts:151-163 | no payment for the intent: nothing changes; otherwise only that payment changes, to FAILED |
| PaymentController.RefundAmount | src/controllers/payment.controller.ts:173-174 | a positive refunded amount is taken as is, anything else falls back to the payment's amount |
| PaymentController.RefundCharge | src/controllers/payment.controller.ts:165-198 | no payment for the charge, or one without an order: nothing changes (200); a failure changes nothing; only the row `newRefundId` can be added, and every other refund is kept |
| PaymentController.Reconcile | src/controllers/payment.controller.ts:81-209 | each event gives 200 or 500, a 500 changes nothing, and other event types are ignored |
| PaymentController.Webhook | src/controllers/payment.controller.ts:64-79 | missing secret: 500; missing signature, non-raw body or bad signature: 400; neither changes a table; otherwise the event switch |
| PaymentController.CompleteCheckoutSucceeded | src/controllers/payment.controller.ts:99-127 | a successful checkout completion found the order and a free charge, marked the order PAID and applied the upsert keyed by the intent |
| PaymentController.UpsertKeepsPayments | src/controllers/payment.controller.ts:109-126 | the payment upsert keeps foreign keys and unique intent and charge ids, and loses no payment |
| PaymentController.CompleteCheckoutKeepsConsistency | src/controllers/payment.controller.ts:99-127 | checkout completion keeps foreign keys, unique intent and charge ids and order totals |
| PaymentController.IntentSucceededKeepsConsistency | src/controllers/payment.controller.ts:137-146 | the success update keeps the integrity rules, including unique charge ids |
| PaymentController.IntentFailedKeepsConsistency | src/controllers/payment.controller.ts:155-160 | the failure update keeps the integrity rules |
| PaymentController.RefundKeepsConsistency | src/controllers/payment.controller.ts:176-195 | the refund transaction keeps the integrity rules |
| PaymentController.ReconcileKeepsConsistency | src/controllers/payment.controller.ts:82-203 | every event keeps the integrity rules of the three tables |
| PaymentController.CheckoutLeavesOnePayment | src/controllers/payment.controller.ts:109-126 | after checkout completion with an intent, exactly one payment has that intent id, SUCCEEDED, with the latest charge and the session amount |
| PaymentController.CompleteCheckoutWithIntent | src/controllers/payment.controller.ts:99-127 | with an order, an intent and a charge free for the intent's payment, completion succeeds with the PAID order and the upsert |
| PaymentController.UpsertFindsItsRow | src/controllers/payment.controller.ts:109-126 | after the upsert the intent key finds the written row, its charge stays free, and repeating the upsert changes nothing |
| PaymentController.RedeliveryWithIntent | src/controllers/payment.controller.ts:99-127 | a second delivery of the same checkout gives the outcome of one delivery at the later time |
| PaymentController.CheckoutRedeliveryIsIdempotent | src/controllers/payment.controller.ts:99-127 | delivering a completed checkout twice equals delivering it once at the later time, and leaves exactly one SUCCEEDED payment for the intent |
| PaymentController.CheckoutWithoutIntentPaysTwice | src/controllers/payment.controller.ts:88-125 | without a payment intent, two deliveries create two identical payments for the order |
| PaymentController.IntentEventsLastWriterWins | src/controllers/payment.controller.ts:132-163 | the intent event applied last decides the payment's status |
| PaymentController.RefundRecordsOneRefund | src/controllers/payment.controller.ts:169-196 | exactly one refund is added, with the fallback amount and the payment's currency; the payment and the order become REFUNDED; nothing else changes |
| PaymentController.RefundRedeliveryRecordsTwice | src/controllers/payment.controller.ts:176-186 | two deliveries of one refund event record two refunds for the same payment |
| PaymentController.FindByIntent | src/controllers/payment.controller.ts:137 | the lookup by the unique intent id finds the specified payment |
| PaymentController.FindByCharge | src/controllers/payment.controller.ts:169 | the lookup by the unique charge id finds the specified payment |
| PaymentController.ApplyCheckout | src/controllers/payment.controller.ts:83-130 | the store ends as `CompleteCheckout` specifies, with its status |
| PaymentController.ApplyIntentSucceeded | src/controllers/payment.controller.ts:132-149 | the store ends as `IntentSucceeded` specifies, with its status |
| PaymentController.ApplyIntentFailed | src/controllers/payment.controller.ts:151-163 | the store ends as `IntentFailed` specifies |
| PaymentController.ApplyRefund | src/controllers/payment.controller.ts:165-198 | the store ends as `RefundCharge` specifies, with its status; with a fresh refund id, no existing refund row is changed and at most that one is added |
| PaymentController.HandleWebhook | src/controllers/payment.controller.ts:64-209 | the handler's status and tables are those of `Webhook`, the store stays valid, and no existing refund row is changed (at most the fresh one is added) |
| WishlistController.EntryFor | src/controllers/wishlist.controller.ts:70-72 | the caller's entry for a product, or proof that there is none |
| WishlistController.GetMyWishlistProducts | src/controllers/wishlist.controller.ts:10-27 | 401; otherwise exactly the caller's entries |
| WishlistController.AddProductToWishlist | src/controllers/wishlist.controller.ts:29-57 | 401; 400 for a missing product; 400 and no insert for a product already listed; otherwise exactly one entry (201), or 500 for an unknown product |
| WishlistController.RemoveProductFromWishlist | src/controllers/wishlist.controller.ts:59-88 | 401; 400 for a missing product; 404 and no change when absent; otherwise exactly that entry deleted, and the product is no longer listed |
| WishlistController.AddThenRemove | src/controllers/wishlist.controller.ts:29-88 | removing a product just added restores the wishlist |
| ConversationController.MessagesOf | src/controllers/conversation.controller.ts:93 | exactly the messages of one conversation |
| ConversationController.ConversationFor | src/controllers/conversation.controller.ts:87-94 | the conversation of (buyer, seller, product), or proof that there is none |
| ConversationController.ListAllConversations | src/controllers/conversation.controller.ts:17-38 | 401; otherwise exactly the conversations whose seller is the caller |
| ConversationController.ListAllConversationsByProduct | src/controllers/conversation.controller.ts:40-67 | 401; 400 for a missing product; otherwise exactly the caller's conversations as seller about that product |
| ConversationController.StartOrGetConversation | src/controllers/conversation.controller.ts:69-113 | 401; 400; 404 for an unknown product; otherwise the existing conversation with the product's seller, or exactly one new one, with its messages (200) |
| ConversationController.SendMessage | src/controllers/conversation.controller.ts:115-145 | 401; 400 for a missing id or content; 404 for an unknown conversation; otherwise exactly one message, sent by the caller (201) |
| ConversationController.StartTwice | src/controllers/conversation.controller.ts:85-105 | starting the same conversation twice returns the same one and creates at most one |

## Left out

- Stripe calls are not modelled. The session id, the payment-intent lookup and signature verification are inputs, and the session request is an output.
- `charge.refunded` reads the charge's `refunded` field as an amount in cents. The model takes it as an optional integer and does not model the type Stripe actually gives that field.
- Floating-point money is not modelled. `Number(price) * quantity`, `Math.round(price * 100)` and `amountTotal / 100` are all exact integer cents here.
- Clocks, timers and `uuid()` are parameters: `now`, fresh ids and idempotency keys. The `setInterval` timer is not modelled; its body is `RateLimitStore.Sweep`.
- Query values are taken as integers. A fractional `Number(...)` page or limit is not modelled.
- Pagination.CreatePaginationMeta: it requires limit ≥ 1. A zero or negative limit, which gives Infinity or NaN in JavaScript, is not modelled; `GetPaginationParams` never produces one.
- Common.ToUpper: only ASCII letters are upper-cased.
- Authentication is not modelled: the caller is an optional user id. Request validation schemas, response sanitizers and projections (`include: { product }`, `sanitize*`), routing and configuration are left out as well.
- `listAllOrders` is not modelled. It is an unfiltered read with nothing to prove.
- Product stock and listing status are not read by the modelled code, and the catalog is read-only here.
- Order status is a free string, as the status update writes it.
- Error messages are not modelled; only status codes are.
- Store faults other than constraint violations and missing rows are not modelled, except the failure between the two writes of order placement (`clearFails`).
- The database schema is not part of this model. The unique indexes assumed are those the handlers rely on. No unique index is assumed on `Payment.orderId` or `Refund.stripeRefundId`.
- Handlers are modelled as running one at a time: each request's reads and writes complete before the next request starts. Two concurrent requests could both miss the `findFirst` and both insert, creating duplicate cart lines, wishlist entries or conversations. `CartConsistent`, `WishlistConsistent` and `ConversationsConsistent` rule those duplicates out. Two concurrent cart merges could also lose one of the quantity updates.
- Column widths are not modelled: quantities and amounts are unbounded integers. A merge in `AddItemToCart` that would overflow a 32-bit `Int` quantity column is not modelled.
- Order items are kept as a sequence inside their `Order`, not as a table of their own. They are written only by the nested `items.create` of `order.create`. Their row ids and their `orderId` back-references are not modelled.
- RateLimit.RateLimitStore.Limit: the store is a map in which every key behaves alike. The source's store is a plain object `{}`, so a key naming an `Object.prototype` member (`"constructor"`, `"toString"`, `"__proto__"`, …) finds an inherited, truthy value. Both comparisons with its undefined `resetTime` and `count` are false, so `count++` writes `NaN` onto the inherited object and the request is always admitted. Such a key is never limited and never swept, so `WindowAdmitsAtMostMax` does not hold for it in the source. Only a custom `keyGenerator` can produce such a key.
- Query results are modelled as maps keyed by id, except the cart listing, whose order is a parameter. The row order of the other reads is not modelled.
