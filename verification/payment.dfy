/**
 * The payment controller: creating a Stripe checkout session for an order, and the
 * webhook that reconciles the order, payment and refund tables with Stripe's events.
 *
 * Stripe itself is outside the model. The checkout session id, the result of
 * retrieving a payment intent and the outcome of signature verification are inputs;
 * the request sent to Stripe is an output. Every database write that the store would
 * reject (an update of a missing row, a duplicate charge id) fails the whole handler
 * with 500 and, since the writes of one event run in one transaction, changes nothing.
 *
 * The webhook is specified by the ghost function `Webhook` over the three tables taken
 * as one `Ledger` value; `HandleWebhook` performs it step by step on the store.
 */
module PaymentController {
  import opened Common
  import opened Tables

  // ---------------------------------------------------------------------------
  // Checkout session
  // ---------------------------------------------------------------------------

  /** One `line_items` entry of the session request; `unitAmount` is in cents. */
  datatype LineItem = LineItem(currency: string, name: string, description: Option<string>, unitAmount: int, quantity: int)

  /** What is sent to Stripe: the line items, `metadata.orderId` and the idempotency key. */
  datatype SessionRequest = SessionRequest(lineItems: seq<LineItem>, metadataOrderId: Id, idempotencyKey: string)

  ghost predicate Catalogued(items: seq<OrderItem>, products: map<Id, Product>)
  {
    forall i :: 0 <= i < |items| ==> items[i].productId in products
  }

  /** The line item for one order item: priced at the product's current price, not the price paid. */
  function LineItemFor(item: OrderItem, products: map<Id, Product>): (li: LineItem)
    requires item.productId in products
    ensures li.currency == "usd" && li.quantity == item.quantity
    ensures li.unitAmount == products[item.productId].price
    ensures li.name == products[item.productId].title && li.description == products[item.productId].description
  {
    var product := products[item.productId];
    LineItem("usd", product.title, product.description, product.price, item.quantity)
  }

  /** One line item per order item, in the order of the items. */
  function LineItems(items: seq<OrderItem>, products: map<Id, Product>): (r: seq<LineItem>)
    requires Catalogued(items, products)
    ensures |r| == |items|
    ensures forall i :: 0 <= i < |items| ==> r[i] == LineItemFor(items[i], products)
  {
    if items == [] then [] else [LineItemFor(items[0], products)] + LineItems(items[1..], products)
  }

  /** What Stripe charges for a list of line items: Σ unitAmount × quantity. */
  function Charged(lineItems: seq<LineItem>): int
  {
    if lineItems == [] then 0 else lineItems[0].unitAmount * lineItems[0].quantity + Charged(lineItems[1..])
  }

  /**
   * When no product price has changed since the order was placed, the session charges
   * exactly the order's total.
   */
  lemma {:induction false} ChargeMatchesOrderTotal(items: seq<OrderItem>, products: map<Id, Product>)
    requires Catalogued(items, products)
    requires forall i :: 0 <= i < |items| ==> products[items[i].productId].price == items[i].priceAtPurchase
    ensures Charged(LineItems(items, products)) == ItemsTotal(items)
  {
    if items != [] {
      assert LineItems(items, products)[1..] == LineItems(items[1..], products);
      ChargeMatchesOrderTotal(items[1..], products);
    }
  }

  /**
   * The session is priced from the catalog as it is now: a product whose price rose
   * after the order was placed is charged at the new price, not at `priceAtPurchase`.
   */
  lemma RepricedProductChangesCharge()
    ensures var items := [OrderItem("p", 2, 500, "Mug")];
      var products := map["p" := Product("Mug", None, 700, "s")];
      Catalogued(items, products)
      && ItemsTotal(items) == 1000
      && Charged(LineItems(items, products)) == 1400
  {
    var items := [OrderItem("p", 2, 500, "Mug")];
    var products := map["p" := Product("Mug", None, 700, "s")];
    assert LineItems(items, products) == [LineItem("usd", "Mug", None, 700, 2)];
  }

  function CheckoutRequest(orderId: Id, order: Order, products: map<Id, Product>): (req: SessionRequest)
    requires Catalogued(order.items, products)
    ensures req.lineItems == LineItems(order.items, products)
    ensures req.metadataOrderId == orderId && req.idempotencyKey == order.idempotencyKey
  {
    SessionRequest(LineItems(order.items, products), orderId, order.idempotencyKey)
  }

  /**
   * Create a checkout session for an order and record its id on the order. `session` is
   * the id Stripe returns for `request`, or `None` when the Stripe call fails.
   */
  method CreateCheckoutSession(db: Db, orderId: Option<string>, session: Option<string>)
    returns (r: Reply<string>, request: Option<SessionRequest>)
    requires db.Valid()
    modifies db`orders
    ensures db.Valid()
    ensures Present(orderId).None? ==> r == Failure(400) && request.None? && db.orders == old(db.orders)
    ensures Present(orderId).Some? && orderId.value !in old(db.orders) ==>
      r == Failure(404) && request.None? && db.orders == old(db.orders)
    ensures Present(orderId).Some? && orderId.value in old(db.orders) ==>
      var order := old(db.orders)[orderId.value];
      && Catalogued(order.items, db.products)
      && request == Some(CheckoutRequest(orderId.value, order, db.products))
      && (session.None? ==> r == Failure(500) && db.orders == old(db.orders))
      && (session.Some? ==>
            r == Success(200, session.value)
            && db.orders == old(db.orders)[orderId.value := order.(stripeSessionId := session)])
  {
    if Present(orderId).None? {
      return Failure(400), None;
    }
    var id := orderId.value;
    if id !in db.orders {
      return Failure(404), None;
    }
    var order := db.orders[id];
    request := Some(CheckoutRequest(id, order, db.products));
    if session.None? {
      return Failure(500), request;
    }
    ghost var ledger := db.PaymentLedger().(orders := db.orders[id := order.(stripeSessionId := session)]);
    assert LedgerConsistent(ledger, db.products);
    db.orders := db.orders[id := order.(stripeSessionId := session)];
    assert db.PaymentLedger() == ledger;
    r := Success(200, session.value);
  }

  // ---------------------------------------------------------------------------
  // Webhook events
  // ---------------------------------------------------------------------------

  /** The fields of each handled event type that the handler reads; `Other` is any other type. */
  datatype Event =
    | CheckoutSessionCompleted(orderId: Option<string>, paymentIntent: Option<string>, amountTotal: Option<int>,
                               currency: Option<string>)
    | PaymentIntentSucceeded(intentId: string, latestCharge: Option<string>)
    | PaymentIntentFailed(intentId: string)
    | ChargeRefunded(chargeId: string, refunded: Option<int>, refundId: Option<string>)
    | Other(kind: string)

  /** Retrieving the payment intent: the call fails, or it yields the intent's latest charge. */
  datatype IntentLookup = LookupFailed | LatestCharge(charge: Option<string>)

  /**
   * What the handler checks before reading the event: the configured webhook secret,
   * the `stripe-signature` header, whether the body arrived raw, and whether the
   * signature verifies.
   */
  datatype Delivery = Delivery(secret: Option<string>, signature: Option<string>, bodyIsBuffer: bool, signatureValid: bool)

  datatype Outcome = Outcome(status: int, ledger: Ledger)

  /** The payment whose intent id is `intent`, if any (unique when the payments are consistent). */
  ghost function PaymentByIntent(payments: map<Id, Payment>, intent: string): (r: Option<Id>)
    ensures r.Some? ==> r.value in payments && payments[r.value].stripePaymentIntentId == Some(intent)
    ensures r.None? ==> forall id :: id in payments ==> payments[id].stripePaymentIntentId != Some(intent)
  {
    if exists id :: id in payments && payments[id].stripePaymentIntentId == Some(intent)
    then Some(var id :| id in payments && payments[id].stripePaymentIntentId == Some(intent); id)
    else None
  }

  /** The payment whose charge id is `charge`, if any (unique when the payments are consistent). */
  ghost function PaymentByCharge(payments: map<Id, Payment>, charge: string): (r: Option<Id>)
    ensures r.Some? ==> r.value in payments && payments[r.value].stripeChargeId == Some(charge)
    ensures r.None? ==> forall id :: id in payments ==> payments[id].stripeChargeId != Some(charge)
  {
    if exists id :: id in payments && payments[id].stripeChargeId == Some(charge)
    then Some(var id :| id in payments && payments[id].stripeChargeId == Some(charge); id)
    else None
  }

  /**
   * Writing `charge` into the payment `self` (or into a new payment, when `self` is
   * `None`) respects the unique index on charge ids.
   */
  predicate ChargeFree(payments: map<Id, Payment>, self: Option<Id>, charge: Option<string>)
  {
    charge.None? || forall id :: id in payments && payments[id].stripeChargeId == charge ==> self == Some(id)
  }

  /** The order as the checkout completion leaves it. */
  function MarkPaid(order: Order, intent: Option<string>, now: int): (paid: Order)
    ensures paid.status == PAID && paid.paymentStatus == Some(Succeeded)
    ensures paid.stripePaymentIntentId == intent && paid.paidAt == Some(now)
    ensures paid.userId == order.userId && paid.totalAmount == order.totalAmount && paid.items == order.items
    ensures paid.idempotencyKey == order.idempotencyKey && paid.stripeSessionId == order.stripeSessionId
  {
    order.(status := PAID, paymentStatus := Some(Succeeded), stripePaymentIntentId := intent, paidAt := Some(now))
  }

  /**
   * The payment upsert of the checkout completion: the row found by the intent key is
   * updated (its order and intent id stay as they were), or else a row is created.
   */
  function Upsert(payments: map<Id, Payment>, existing: Option<Id>, orderId: Id, amount: int, currency: string,
                  intent: Option<string>, charge: Option<string>, newPaymentId: Id): (r: map<Id, Payment>)
    requires existing.Some? ==> existing.value in payments
    ensures var j := if existing.Some? then existing.value else newPaymentId;
      && r.Keys == payments.Keys + {j}
      && r[j].amount == amount && r[j].currency == currency && r[j].stripeChargeId == charge && r[j].status == Succeeded
      && (existing.Some? ==> r[j].orderId == payments[j].orderId
                             && r[j].stripePaymentIntentId == payments[j].stripePaymentIntentId)
      && (existing.None? ==> r[j].orderId == Some(orderId) && r[j].stripePaymentIntentId == intent)
      && (forall id :: id in payments && id != j ==> r[id] == payments[id])
  {
    if existing.Some? then
      var p := payments[existing.value];
      payments[existing.value := p.(amount := amount, currency := currency, stripeChargeId := charge, status := Succeeded)]
    else
      payments[newPaymentId := Payment(Some(orderId), amount, currency, intent, charge, Succeeded)]
  }

  /**
   * `checkout.session.completed`. Without a metadata order id nothing happens. Otherwise,
   * in one transaction, the order is marked PAID (with the session's payment intent and
   * the time) and the payment keyed by the intent id is updated, or created for the order
   * when there is none. An event without a payment intent looks for the key `""`.
   */
  ghost function CompleteCheckout(l: Ledger, orderId: Option<string>, paymentIntent: Option<string>,
                                  amountTotal: Option<int>, currency: Option<string>, lookup: IntentLookup,
                                  now: int, newPaymentId: Id): (o: Outcome)
    ensures o.status == 200 || o.status == 500
    ensures o.status == 500 ==> o.ledger == l
    ensures Present(orderId).None? ==> o == Outcome(200, l)
    ensures o.ledger.refunds == l.refunds
    ensures o.status == 200 && Present(orderId).Some? ==>
      var oid := orderId.value;
      && oid in l.orders
      && o.ledger.orders == l.orders[oid := MarkPaid(l.orders[oid], Present(paymentIntent), now)]
      && (forall id :: id in l.payments ==> id in o.ledger.payments)
  {
    var oid := Present(orderId);
    if oid.None? then Outcome(200, l)
    else
      var intent := Present(paymentIntent);
      if intent.Some? && lookup.LookupFailed? then Outcome(500, l)
      else
        var charge := if intent.Some? then Present(lookup.charge) else None;
        var existing := PaymentByIntent(l.payments, intent.GetOr(""));
        if oid.value !in l.orders || !ChargeFree(l.payments, existing, charge) then Outcome(500, l)
        else
          var amount := amountTotal.GetOr(0);
          var cur := ToUpper(currency.GetOr("usd"));
          var orders := l.orders[oid.value := MarkPaid(l.orders[oid.value], intent, now)];
          var payments := Upsert(l.payments, existing, oid.value, amount, cur, intent, charge, newPaymentId);
          Outcome(200, Ledger(orders, payments, l.refunds))
  }

  /**
   * `payment_intent.succeeded`: the payment for the intent, if there is one, becomes
   * SUCCEEDED and takes the event's latest charge, keeping its own when the event has none.
   */
  ghost function IntentSucceeded(l: Ledger, intentId: string, latestCharge: Option<string>): (o: Outcome)
    ensures o.status == 200 || o.status == 500
    ensures o.status == 500 ==> o.ledger == l
    ensures PaymentByIntent(l.payments, intentId).None? ==> o == Outcome(200, l)
    ensures o.ledger.orders == l.orders && o.ledger.refunds == l.refunds
    ensures o.ledger.payments.Keys == l.payments.Keys
    ensures PaymentByIntent(l.payments, intentId).Some? ==>
      var id := PaymentByIntent(l.payments, intentId).value;
      var charge := if Present(latestCharge).Some? then Present(latestCharge) else l.payments[id].stripeChargeId;
      o.status == 200 <==> ChargeFree(l.payments, Some(id), charge)
    ensures o.status == 200 && PaymentByIntent(l.payments, intentId).Some? ==>
      var id := PaymentByIntent(l.payments, intentId).value;
      var p := o.ledger.payments[id];
      && p.status == Succeeded
      && p.stripeChargeId == (if Present(latestCharge).Some? then Present(latestCharge) else l.payments[id].stripeChargeId)
      && p.(status := l.payments[id].status, stripeChargeId := l.payments[id].stripeChargeId) == l.payments[id]
      && (forall other :: other in l.payments && other != id ==> o.ledger.payments[other] == l.payments[other])
  {
    var existing := PaymentByIntent(l.payments, intentId);
    if existing.None? then Outcome(200, l)
    else
      var p := l.payments[existing.value];
      var charge := Present(latestCharge);
      var newCharge := if charge.Some? then charge else p.stripeChargeId;
      if !ChargeFree(l.payments, existing, newCharge) then Outcome(500, l)
      else Outcome(200, l.(payments := l.payments[existing.value := p.(status := Succeeded, stripeChargeId := newCharge)]))
  }

  /** `payment_intent.payment_failed`: the payment for the intent, if there is one, becomes FAILED. */
  ghost function IntentFailed(l: Ledger, intentId: string): (o: Outcome)
    ensures o.status == 200
    ensures o.ledger.orders == l.orders && o.ledger.refunds == l.refunds
    ensures o.ledger.payments.Keys == l.payments.Keys
    ensures PaymentByIntent(l.payments, intentId).None? ==> o.ledger == l
    ensures PaymentByIntent(l.payments, intentId).Some? ==>
      var id := PaymentByIntent(l.payments, intentId).value;
      && o.ledger.payments[id] == l.payments[id].(status := Failed)
      && (forall other :: other in l.payments && other != id ==> o.ledger.payments[other] == l.payments[other])
  {
    var existing := PaymentByIntent(l.payments, intentId);
    if existing.None? then Outcome(200, l)
    else Outcome(200, l.(payments := l.payments[existing.value := l.payments[existing.value].(status := Failed)]))
  }

  /** `(ch as any).refunded || 0`, then a positive amount is taken as is and anything else falls back to the payment's. */
  function RefundAmount(refunded: Option<int>, paymentAmount: int): (amount: int)
    ensures refunded.Some? && refunded.value > 0 ==> amount == refunded.value
    ensures refunded.None? || refunded.value <= 0 ==> amount == paymentAmount
  {
    var cents := refunded.GetOr(0);
    if cents > 0 then cents else paymentAmount
  }

  /**
   * `charge.refunded`: when the charge belongs to a payment of an order, one refund is
   * recorded and the payment and the order become REFUNDED, in one transaction.
   */
  ghost function RefundCharge(l: Ledger, chargeId: string, refunded: Option<int>, refundId: Option<string>,
                              newRefundId: Id): (o: Outcome)
    ensures o.status == 200 || o.status == 500
    ensures o.status == 500 ==> o.ledger == l
    ensures PaymentByCharge(l.payments, chargeId).None? ==> o == Outcome(200, l)
    ensures (PaymentByCharge(l.payments, chargeId).Some?
             && Present(l.payments[PaymentByCharge(l.payments, chargeId).value].orderId).None?) ==> o == Outcome(200, l)
    ensures l.refunds.Keys <= o.ledger.refunds.Keys <= l.refunds.Keys + {newRefundId}
    ensures forall id :: id in l.refunds && id != newRefundId ==> o.ledger.refunds[id] == l.refunds[id]
  {
    var existing := PaymentByCharge(l.payments, chargeId);
    if existing.None? then Outcome(200, l)
    else
      var p := l.payments[existing.value];
      var oid := Present(p.orderId);
      if oid.None? then Outcome(200, l)
      else if oid.value !in l.orders then Outcome(500, l)
      else
        var refund := Refund(existing.value, RefundAmount(refunded, p.amount), p.currency, "refunded", Present(refundId), "succeeded");
        var order := l.orders[oid.value];
        Outcome(200, Ledger(
          l.orders[oid.value := order.(status := REFUNDED, paymentStatus := Some(Refunded))],
          l.payments[existing.value := p.(status := Refunded)],
          l.refunds[newRefundId := refund]))
  }

  /** The event switch, once the delivery has been authenticated. Other event types are ignored. */
  ghost function Reconcile(l: Ledger, event: Event, lookup: IntentLookup, now: int, newPaymentId: Id, newRefundId: Id)
    : (o: Outcome)
    ensures o.status == 200 || o.status == 500
    ensures o.status == 500 ==> o.ledger == l
    ensures event.Other? ==> o == Outcome(200, l)
  {
    match event
    case CheckoutSessionCompleted(orderId, paymentIntent, amountTotal, currency) =>
      CompleteCheckout(l, orderId, paymentIntent, amountTotal, currency, lookup, now, newPaymentId)
    case PaymentIntentSucceeded(intentId, latestCharge) => IntentSucceeded(l, intentId, latestCharge)
    case PaymentIntentFailed(intentId) => IntentFailed(l, intentId)
    case ChargeRefunded(chargeId, refunded, refundId) => RefundCharge(l, chargeId, refunded, refundId, newRefundId)
    case Other(_) => Outcome(200, l)
  }

  predicate Authentic(d: Delivery)
  {
    Present(d.secret).Some? && Present(d.signature).Some? && d.bodyIsBuffer && d.signatureValid
  }

  /**
   * The whole handler. The four guards run before anything is read or written: a missing
   * secret is a server error (500), a missing signature, a body that is not raw bytes or
   * a signature that does not verify is a bad request (400), and none of them changes a table.
   */
  ghost function Webhook(l: Ledger, d: Delivery, event: Event, lookup: IntentLookup, now: int,
                         newPaymentId: Id, newRefundId: Id): (o: Outcome)
    ensures Present(d.secret).None? ==> o == Outcome(500, l)
    ensures Present(d.secret).Some? && !Authentic(d) ==> o == Outcome(400, l)
    ensures Authentic(d) ==> o == Reconcile(l, event, lookup, now, newPaymentId, newRefundId)
    ensures o.status != 200 ==> o.ledger == l
  {
    if Present(d.secret).None? then Outcome(500, l)
    else if Present(d.signature).None? || !d.bodyIsBuffer || !d.signatureValid then Outcome(400, l)
    else Reconcile(l, event, lookup, now, newPaymentId, newRefundId)
  }

  // ---------------------------------------------------------------------------
  // Properties of the webhook
  // ---------------------------------------------------------------------------

  /**
   * The successful checkout completion in closed form: the order's new state and the
   * upsert, applied to tables in which the lookup found what it found.
   */
  lemma CompleteCheckoutSucceeded(l: Ledger, orderId: Option<string>, paymentIntent: Option<string>,
                                  amountTotal: Option<int>, currency: Option<string>, lookup: IntentLookup,
                                  now: int, newPaymentId: Id)
    requires Present(orderId).Some?
    requires CompleteCheckout(l, orderId, paymentIntent, amountTotal, currency, lookup, now, newPaymentId).status == 200
    ensures var intent := Present(paymentIntent);
      var charge := if intent.Some? then Present(lookup.charge) else None;
      var existing := PaymentByIntent(l.payments, intent.GetOr(""));
      var oid := orderId.value;
      && (intent.Some? ==> lookup.LatestCharge?)
      && oid in l.orders
      && ChargeFree(l.payments, existing, charge)
      && CompleteCheckout(l, orderId, paymentIntent, amountTotal, currency, lookup, now, newPaymentId).ledger
         == Ledger(l.orders[oid := MarkPaid(l.orders[oid], intent, now)],
                   Upsert(l.payments, existing, oid, amountTotal.GetOr(0), ToUpper(currency.GetOr("usd")), intent, charge, newPaymentId),
                   l.refunds)
  {
  }

  /** The upsert keeps the payments' foreign keys and their unique intent and charge ids. */
  lemma UpsertKeepsPayments(payments: map<Id, Payment>, orders: map<Id, Order>, existing: Option<Id>, orderId: Id,
                            amount: int, currency: string, intent: Option<string>, charge: Option<string>, newPaymentId: Id)
    requires PaymentsConsistent(payments, orders) && orderId in orders && newPaymentId !in payments
    requires existing == PaymentByIntent(payments, intent.GetOr(""))
    requires ChargeFree(payments, existing, charge)
    ensures PaymentsConsistent(Upsert(payments, existing, orderId, amount, currency, intent, charge, newPaymentId), orders)
    ensures payments.Keys <= Upsert(payments, existing, orderId, amount, currency, intent, charge, newPaymentId).Keys
  {
    var ps := Upsert(payments, existing, orderId, amount, currency, intent, charge, newPaymentId);
    if existing.Some? {
      assert ps == payments[existing.value := ps[existing.value]];
      assert ps[existing.value].stripePaymentIntentId == payments[existing.value].stripePaymentIntentId;
      assert ps[existing.value].orderId == payments[existing.value].orderId;
    } else {
      assert ps == payments[newPaymentId := ps[newPaymentId]];
      assert ps[newPaymentId].stripePaymentIntentId == intent;
    }
    assert IntentsUnique(ps);
    assert ChargesUnique(ps);
  }

  /**
   * On consistent tables, a `payment_intent.succeeded` event without a latest charge
   * always succeeds: the payment keeps its own charge id, which only it holds.
   */
  lemma IntentSucceededWithoutCharge(l: Ledger, products: map<Id, Product>, intentId: string, latestCharge: Option<string>)
    requires LedgerConsistent(l, products)
    requires PaymentByIntent(l.payments, intentId).Some? && Present(latestCharge).None?
    ensures IntentSucceeded(l, intentId, latestCharge).status == 200
    ensures var id := PaymentByIntent(l.payments, intentId).value;
      IntentSucceeded(l, intentId, latestCharge).ledger.payments == l.payments[id := l.payments[id].(status := Succeeded)]
  {
    var id := PaymentByIntent(l.payments, intentId).value;
    assert ChargeFree(l.payments, Some(id), l.payments[id].stripeChargeId);
  }

  /** Checkout completion keeps every integrity rule of the three tables. */
  lemma CompleteCheckoutKeepsConsistency(l: Ledger, products: map<Id, Product>, orderId: Option<string>,
                                         paymentIntent: Option<string>, amountTotal: Option<int>,
                                         currency: Option<string>, lookup: IntentLookup, now: int, newPaymentId: Id)
    requires LedgerConsistent(l, products) && newPaymentId !in l.payments
    ensures LedgerConsistent(CompleteCheckout(l, orderId, paymentIntent, amountTotal, currency, lookup, now, newPaymentId).ledger, products)
  {
    var o := CompleteCheckout(l, orderId, paymentIntent, amountTotal, currency, lookup, now, newPaymentId);
    if o.status == 200 && Present(orderId).Some? {
      CompleteCheckoutSucceeded(l, orderId, paymentIntent, amountTotal, currency, lookup, now, newPaymentId);
      var intent := Present(paymentIntent);
      var charge := if intent.Some? then Present(lookup.charge) else None;
      var existing := PaymentByIntent(l.payments, intent.GetOr(""));
      var oid := orderId.value;
      var orders := l.orders[oid := MarkPaid(l.orders[oid], intent, now)];
      assert OrdersConsistent(orders, products);
      assert PaymentsConsistent(l.payments, orders);
      UpsertKeepsPayments(l.payments, orders, existing, oid, amountTotal.GetOr(0), ToUpper(currency.GetOr("usd")),
                          intent, charge, newPaymentId);
    }
  }

  lemma IntentSucceededKeepsConsistency(l: Ledger, products: map<Id, Product>, intentId: string, latestCharge: Option<string>)
    requires LedgerConsistent(l, products)
    ensures LedgerConsistent(IntentSucceeded(l, intentId, latestCharge).ledger, products)
  {
    var o := IntentSucceeded(l, intentId, latestCharge);
    if o.status == 200 && PaymentByIntent(l.payments, intentId).Some? {
      var id := PaymentByIntent(l.payments, intentId).value;
      assert o.ledger.payments == l.payments[id := o.ledger.payments[id]];
      assert ChargeFree(l.payments, Some(id), o.ledger.payments[id].stripeChargeId);
    }
  }

  lemma IntentFailedKeepsConsistency(l: Ledger, products: map<Id, Product>, intentId: string)
    requires LedgerConsistent(l, products)
    ensures LedgerConsistent(IntentFailed(l, intentId).ledger, products)
  {
    var o := IntentFailed(l, intentId);
    if PaymentByIntent(l.payments, intentId).Some? {
      var id := PaymentByIntent(l.payments, intentId).value;
      assert o.ledger.payments == l.payments[id := o.ledger.payments[id]];
    }
  }

  lemma RefundKeepsConsistency(l: Ledger, products: map<Id, Product>, chargeId: string, refunded: Option<int>,
                               refundId: Option<string>, newRefundId: Id)
    requires LedgerConsistent(l, products)
    ensures LedgerConsistent(RefundCharge(l, chargeId, refunded, refundId, newRefundId).ledger, products)
  {
  }

  /** Each event keeps every integrity rule of the three tables. */
  lemma ReconcileKeepsConsistency(l: Ledger, products: map<Id, Product>, event: Event, lookup: IntentLookup, now: int,
                                  newPaymentId: Id, newRefundId: Id)
    requires LedgerConsistent(l, products) && newPaymentId !in l.payments
    ensures LedgerConsistent(Reconcile(l, event, lookup, now, newPaymentId, newRefundId).ledger, products)
  {
    match event
    case CheckoutSessionCompleted(orderId, paymentIntent, amountTotal, currency) =>
      CompleteCheckoutKeepsConsistency(l, products, orderId, paymentIntent, amountTotal, currency, lookup, now, newPaymentId);
    case PaymentIntentSucceeded(intentId, latestCharge) =>
      IntentSucceededKeepsConsistency(l, products, intentId, latestCharge);
    case PaymentIntentFailed(intentId) =>
      IntentFailedKeepsConsistency(l, products, intentId);
    case ChargeRefunded(chargeId, refunded, refundId) =>
      RefundKeepsConsistency(l, products, chargeId, refunded, refundId, newRefundId);
    case Other(_) =>
  }

  /**
   * After a completed checkout with a payment intent, exactly one payment carries that
   * intent id: the one that had it before, or else the new one. It is SUCCEEDED and holds
   * the intent's latest charge.
   */
  lemma CheckoutLeavesOnePayment(l: Ledger, products: map<Id, Product>, orderId: Option<string>,
                                 paymentIntent: Option<string>, amountTotal: Option<int>,
                                 currency: Option<string>, lookup: IntentLookup, now: int, newPaymentId: Id)
    requires LedgerConsistent(l, products) && newPaymentId !in l.payments
    requires Present(orderId).Some? && Present(paymentIntent).Some? && lookup.LatestCharge?
    requires CompleteCheckout(l, orderId, paymentIntent, amountTotal, currency, lookup, now, newPaymentId).status == 200
    ensures var ps := CompleteCheckout(l, orderId, paymentIntent, amountTotal, currency, lookup, now, newPaymentId).ledger.payments;
      var before := PaymentByIntent(l.payments, paymentIntent.value);
      var j := if before.Some? then before.value else newPaymentId;
      && PaymentByIntent(ps, paymentIntent.value) == Some(j)
      && ps[j].status == Succeeded
      && ps[j].stripeChargeId == Present(lookup.charge)
      && ps[j].amount == amountTotal.GetOr(0)
      && (forall x :: x in ps && ps[x].stripePaymentIntentId == paymentIntent ==> x == j)
  {
    CompleteCheckoutKeepsConsistency(l, products, orderId, paymentIntent, amountTotal, currency, lookup, now, newPaymentId);
    var k := paymentIntent.value;
    var ps := CompleteCheckout(l, orderId, paymentIntent, amountTotal, currency, lookup, now, newPaymentId).ledger.payments;
    var before := PaymentByIntent(l.payments, k);
    var j := if before.Some? then before.value else newPaymentId;
    assert ps == l.payments[j := ps[j]];
    assert ps[j].stripePaymentIntentId == Some(k);
    assert IntentsUnique(ps);
  }

  /**
   * A completed checkout with a payment intent and a charge that the lookup found, in
   * closed form: it always succeeds on tables where the order exists and the charge is
   * free for the payment the intent key finds.
   */
  lemma CompleteCheckoutWithIntent(l: Ledger, oid: Id, k: string, amountTotal: Option<int>, currency: Option<string>,
                                   charge: Option<string>, now: int, newPaymentId: Id)
    requires oid != "" && k != "" && oid in l.orders
    requires ChargeFree(l.payments, PaymentByIntent(l.payments, k), Present(charge))
    ensures CompleteCheckout(l, Some(oid), Some(k), amountTotal, currency, LatestCharge(charge), now, newPaymentId)
         == Outcome(200, Ledger(l.orders[oid := MarkPaid(l.orders[oid], Some(k), now)],
                                Upsert(l.payments, PaymentByIntent(l.payments, k), oid, amountTotal.GetOr(0),
                                       ToUpper(currency.GetOr("usd")), Some(k), Present(charge), newPaymentId),
                                l.refunds))
  {
  }

  /** Marking an order paid a second time only moves its payment time. */
  lemma MarkPaidAgain(orders: map<Id, Order>, oid: Id, intent: Option<string>, now1: int, now2: int)
    requires oid in orders
    ensures var once := orders[oid := MarkPaid(orders[oid], intent, now1)];
      once[oid := MarkPaid(once[oid], intent, now2)] == orders[oid := MarkPaid(orders[oid], intent, now2)]
  {
    assert MarkPaid(MarkPaid(orders[oid], intent, now1), intent, now2) == MarkPaid(orders[oid], intent, now2);
  }

  /**
   * After the upsert for intent key `k`, the key finds the written row `j`, the charge is
   * free for `j`, and upserting the same values into `j` again changes nothing.
   */
  lemma UpsertFindsItsRow(payments: map<Id, Payment>, oid: Id, amount: int, currency: string, k: string,
                          charge: Option<string>, newPaymentId: Id, otherPaymentId: Id)
    requires IntentsUnique(payments) && newPaymentId !in payments
    requires ChargeFree(payments, PaymentByIntent(payments, k), charge)
    ensures var existing := PaymentByIntent(payments, k);
      var j := if existing.Some? then existing.value else newPaymentId;
      var ps := Upsert(payments, existing, oid, amount, currency, Some(k), charge, newPaymentId);
      && PaymentByIntent(ps, k) == Some(j)
      && ChargeFree(ps, Some(j), charge)
      && Upsert(ps, Some(j), oid, amount, currency, Some(k), charge, otherPaymentId) == ps
  {
    var existing := PaymentByIntent(payments, k);
    var j := if existing.Some? then existing.value else newPaymentId;
    var ps := Upsert(payments, existing, oid, amount, currency, Some(k), charge, newPaymentId);
    assert ps == payments[j := ps[j]];
    assert ps[j].stripePaymentIntentId == Some(k);
    assert Upsert(ps, Some(j), oid, amount, currency, Some(k), charge, otherPaymentId) == ps[j := ps[j]];
  }

  /**
   * Redelivery in terms of the event's own fields: the order id `oid`, the intent `k` and
   * the charge the intent lookup returned.
   */
  lemma RedeliveryWithIntent(l: Ledger, products: map<Id, Product>, oid: Id, k: string, amountTotal: Option<int>,
                             currency: Option<string>, charge: Option<string>, now1: int, now2: int, id1: Id, id2: Id)
    requires LedgerConsistent(l, products) && id1 !in l.payments
    requires oid != "" && k != "" && oid in l.orders
    requires ChargeFree(l.payments, PaymentByIntent(l.payments, k), Present(charge))
    ensures var once := CompleteCheckout(l, Some(oid), Some(k), amountTotal, currency, LatestCharge(charge), now1, id1).ledger;
      CompleteCheckout(once, Some(oid), Some(k), amountTotal, currency, LatestCharge(charge), now2, id2)
      == CompleteCheckout(l, Some(oid), Some(k), amountTotal, currency, LatestCharge(charge), now2, id1)
  {
    var amount, cur := amountTotal.GetOr(0), ToUpper(currency.GetOr("usd"));
    var existing := PaymentByIntent(l.payments, k);
    var j := if existing.Some? then existing.value else id1;
    var ps := Upsert(l.payments, existing, oid, amount, cur, Some(k), Present(charge), id1);
    var once := Ledger(l.orders[oid := MarkPaid(l.orders[oid], Some(k), now1)], ps, l.refunds);
    CompleteCheckoutWithIntent(l, oid, k, amountTotal, currency, charge, now1, id1);
    UpsertFindsItsRow(l.payments, oid, amount, cur, k, Present(charge), id1, id2);
    CompleteCheckoutWithIntent(once, oid, k, amountTotal, currency, charge, now2, id2);
    CompleteCheckoutWithIntent(l, oid, k, amountTotal, currency, charge, now2, id1);
    MarkPaidAgain(l.orders, oid, Some(k), now1, now2);
  }

  /**
   * Redelivering a completed checkout that carries a payment intent changes nothing but
   * the payment time: two deliveries leave the tables as one delivery at the later time
   * would, and exactly one payment, SUCCEEDED, has that intent id.
   */
  lemma CheckoutRedeliveryIsIdempotent(l: Ledger, products: map<Id, Product>, orderId: Option<string>,
                                       paymentIntent: Option<string>, amountTotal: Option<int>,
                                       currency: Option<string>, lookup: IntentLookup,
                                       now1: int, now2: int, id1: Id, id2: Id)
    requires LedgerConsistent(l, products) && id1 !in l.payments
    requires Present(orderId).Some? && Present(paymentIntent).Some? && lookup.LatestCharge?
    requires CompleteCheckout(l, orderId, paymentIntent, amountTotal, currency, lookup, now1, id1).status == 200
    ensures var once := CompleteCheckout(l, orderId, paymentIntent, amountTotal, currency, lookup, now1, id1).ledger;
      var twice := CompleteCheckout(once, orderId, paymentIntent, amountTotal, currency, lookup, now2, id2);
      && twice.status == 200
      && twice.ledger == CompleteCheckout(l, orderId, paymentIntent, amountTotal, currency, lookup, now2, id1).ledger
      && var j := PaymentByIntent(twice.ledger.payments, paymentIntent.value);
         && j.Some? && twice.ledger.payments[j.value].status == Succeeded
         && (forall id :: id in twice.ledger.payments && twice.ledger.payments[id].stripePaymentIntentId == paymentIntent
               ==> id == j.value)
  {
    CompleteCheckoutSucceeded(l, orderId, paymentIntent, amountTotal, currency, lookup, now1, id1);
    assert orderId == Some(orderId.value) && paymentIntent == Some(paymentIntent.value);
    assert lookup == LatestCharge(lookup.charge);
    RedeliveryWithIntent(l, products, orderId.value, paymentIntent.value, amountTotal, currency, lookup.charge,
                         now1, now2, id1, id2);
    CompleteCheckoutWithIntent(l, orderId.value, paymentIntent.value, amountTotal, currency, lookup.charge, now2, id1);
    CheckoutLeavesOnePayment(l, products, orderId, paymentIntent, amountTotal, currency, lookup, now2, id1);
  }

  /**
   * A completed checkout without a payment intent is stored under no intent id, so the
   * upsert for the key `""` never finds it again: every delivery creates one more payment.
   */
  lemma CheckoutWithoutIntentPaysTwice(l: Ledger, products: map<Id, Product>, orderId: Option<string>,
                                       amountTotal: Option<int>, currency: Option<string>, lookup: IntentLookup,
                                       now1: int, now2: int, id1: Id, id2: Id)
    requires LedgerConsistent(l, products)
    requires Present(orderId).Some? && orderId.value in l.orders
    requires forall id :: id in l.payments ==> l.payments[id].stripePaymentIntentId != Some("")
    requires id1 !in l.payments && id2 !in l.payments && id1 != id2
    ensures var once := CompleteCheckout(l, orderId, None, amountTotal, currency, lookup, now1, id1);
      var twice := CompleteCheckout(once.ledger, orderId, None, amountTotal, currency, lookup, now2, id2);
      && once.status == 200 && twice.status == 200
      && once.ledger.payments == l.payments[id1 := twice.ledger.payments[id1]]
      && twice.ledger.payments == once.ledger.payments[id2 := twice.ledger.payments[id1]]
      && twice.ledger.payments[id1].orderId == orderId
  {
    var once := CompleteCheckout(l, orderId, None, amountTotal, currency, lookup, now1, id1);
    assert PaymentByIntent(l.payments, "") == None;
    assert once.ledger.payments[id1].stripePaymentIntentId == None;
    assert PaymentByIntent(once.ledger.payments, "") == None;
  }

  /**
   * Intent events overwrite the payment's status, so the one applied last decides it:
   * FAILED after a later failure, SUCCEEDED after a later success (which, when it brings
   * no charge id, always goes through).
   */
  lemma IntentEventsLastWriterWins(l: Ledger, products: map<Id, Product>, intentId: string, latestCharge: Option<string>)
    requires LedgerConsistent(l, products)
    requires PaymentByIntent(l.payments, intentId).Some?
    ensures var id := PaymentByIntent(l.payments, intentId).value;
      var failedLast := IntentFailed(IntentSucceeded(l, intentId, latestCharge).ledger, intentId);
      var succeededLast := IntentSucceeded(IntentFailed(l, intentId).ledger, intentId, latestCharge);
      && failedLast.ledger.payments[id].status == Failed
      && (Present(latestCharge).None? ==> succeededLast.status == 200)
      && (succeededLast.status == 200 ==> succeededLast.ledger.payments[id].status == Succeeded)
  {
    var id := PaymentByIntent(l.payments, intentId).value;
    var s := IntentSucceeded(l, intentId, latestCharge);
    IntentSucceededKeepsConsistency(l, products, intentId, latestCharge);
    assert s.ledger.payments[id].stripePaymentIntentId == Some(intentId);
    assert PaymentByIntent(s.ledger.payments, intentId) == Some(id);
    var f := IntentFailed(l, intentId);
    IntentFailedKeepsConsistency(l, products, intentId);
    assert f.ledger.payments[id].stripePaymentIntentId == Some(intentId);
    assert PaymentByIntent(f.ledger.payments, intentId) == Some(id);
    if Present(latestCharge).None? {
      assert ChargeFree(f.ledger.payments, Some(id), f.ledger.payments[id].stripeChargeId);
    }
  }

  /**
   * A refund event for a charge of an order's payment records exactly one refund, of the
   * event's amount when positive and of the whole payment otherwise, in the payment's
   * currency, and marks the payment and the order REFUNDED; nothing else changes.
   */
  lemma RefundRecordsOneRefund(l: Ledger, products: map<Id, Product>, chargeId: string, refunded: Option<int>,
                               refundId: Option<string>, newRefundId: Id)
    requires LedgerConsistent(l, products) && newRefundId !in l.refunds
    requires PaymentByCharge(l.payments, chargeId).Some?
    requires Present(l.payments[PaymentByCharge(l.payments, chargeId).value].orderId).Some?
    ensures var j := PaymentByCharge(l.payments, chargeId).value;
      var p := l.payments[j];
      var oid := p.orderId.value;
      var o := RefundCharge(l, chargeId, refunded, refundId, newRefundId);
      && o.status == 200
      && oid in l.orders
      && o.ledger.refunds == l.refunds[newRefundId := o.ledger.refunds[newRefundId]]
      && |o.ledger.refunds| == |l.refunds| + 1
      && o.ledger.refunds[newRefundId].paymentId == j
      && o.ledger.refunds[newRefundId].amount == RefundAmount(refunded, p.amount)
      && o.ledger.refunds[newRefundId].currency == p.currency
      && o.ledger.payments == l.payments[j := p.(status := Refunded)]
      && o.ledger.orders == l.orders[oid := l.orders[oid].(status := REFUNDED, paymentStatus := Some(Refunded))]
  {
    var j := PaymentByCharge(l.payments, chargeId).value;
    assert l.payments[j].orderId.value in l.orders;
  }

  /** The refund event is not deduplicated: delivering it twice records two refunds for the same payment. */
  lemma RefundRedeliveryRecordsTwice(l: Ledger, products: map<Id, Product>, chargeId: string, refunded: Option<int>,
                                     refundId: Option<string>, r1: Id, r2: Id)
    requires LedgerConsistent(l, products) && r1 !in l.refunds && r2 !in l.refunds && r1 != r2
    requires PaymentByCharge(l.payments, chargeId).Some?
    requires Present(l.payments[PaymentByCharge(l.payments, chargeId).value].orderId).Some?
    ensures var once := RefundCharge(l, chargeId, refunded, refundId, r1);
      var twice := RefundCharge(once.ledger, chargeId, refunded, refundId, r2);
      && twice.status == 200
      && r1 in twice.ledger.refunds && r2 in twice.ledger.refunds
      && twice.ledger.refunds[r1].paymentId == twice.ledger.refunds[r2].paymentId
      && |twice.ledger.refunds| == |l.refunds| + 2
  {
    var j := PaymentByCharge(l.payments, chargeId).value;
    RefundRecordsOneRefund(l, products, chargeId, refunded, refundId, r1);
    var once := RefundCharge(l, chargeId, refunded, refundId, r1);
    RefundKeepsConsistency(l, products, chargeId, refunded, refundId, r1);
    assert once.ledger.payments[j].stripeChargeId == Some(chargeId);
    assert PaymentByCharge(once.ledger.payments, chargeId) == Some(j);
    RefundRecordsOneRefund(once.ledger, products, chargeId, refunded, refundId, r2);
  }

  // ---------------------------------------------------------------------------
  // The handler on the store
  // ---------------------------------------------------------------------------

  method FindByIntent(payments: map<Id, Payment>, intent: string) returns (r: Option<Id>)
    requires IntentsUnique(payments)
    ensures r == PaymentByIntent(payments, intent)
  {
    if exists id :: id in payments && payments[id].stripePaymentIntentId == Some(intent) {
      var id :| id in payments && payments[id].stripePaymentIntentId == Some(intent);
      r := Some(id);
    } else {
      r := None;
    }
  }

  method FindByCharge(payments: map<Id, Payment>, charge: string) returns (r: Option<Id>)
    requires ChargesUnique(payments)
    ensures r == PaymentByCharge(payments, charge)
  {
    if exists id :: id in payments && payments[id].stripeChargeId == Some(charge) {
      var id :| id in payments && payments[id].stripeChargeId == Some(charge);
      r := Some(id);
    } else {
      r := None;
    }
  }

  method ApplyCheckout(db: Db, orderIdField: Option<string>, intentField: Option<string>, amountTotal: Option<int>,
                       currencyField: Option<string>, lookup: IntentLookup, now: int, newPaymentId: Id)
    returns (status: int)
    requires IntentsUnique(db.payments)
    modifies db`orders, db`payments
    ensures Outcome(status, db.PaymentLedger())
         == CompleteCheckout(old(db.PaymentLedger()), orderIdField, intentField, amountTotal, currencyField, lookup, now, newPaymentId)
  {
    var orderId := Present(orderIdField);
    if orderId.None? {
      return 200;
    }
    var intent := Present(intentField);
    var charge: Option<string> := None;
    if intent.Some? {
      if lookup.LookupFailed? {
        return 500;
      }
      charge := Present(lookup.charge);
    }
    var oid := orderId.value;
    var existing := FindByIntent(db.payments, intent.GetOr(""));
    if oid !in db.orders || !ChargeFree(db.payments, existing, charge) {
      return 500;
    }
    var amount := amountTotal.GetOr(0);
    var currency := ToUpper(currencyField.GetOr("usd"));
    var order := db.orders[oid];
    db.orders := db.orders[oid := order.(status := PAID, paymentStatus := Some(Succeeded),
                                         stripePaymentIntentId := intent, paidAt := Some(now))];
    if existing.Some? {
      var p := db.payments[existing.value];
      db.payments := db.payments[existing.value := p.(amount := amount, currency := currency, stripeChargeId := charge,
                                                      status := Succeeded)];
    } else {
      db.payments := db.payments[newPaymentId := Payment(Some(oid), amount, currency, intent, charge, Succeeded)];
    }
    status := 200;
  }

  method ApplyIntentSucceeded(db: Db, intentId: string, latestCharge: Option<string>) returns (status: int)
    requires IntentsUnique(db.payments)
    modifies db`payments
    ensures Outcome(status, db.PaymentLedger()) == IntentSucceeded(old(db.PaymentLedger()), intentId, latestCharge)
  {
    var existing := FindByIntent(db.payments, intentId);
    if existing.None? {
      return 200;
    }
    var p := db.payments[existing.value];
    var charge := Present(latestCharge);
    var newCharge := if charge.Some? then charge else p.stripeChargeId;
    if !ChargeFree(db.payments, existing, newCharge) {
      return 500;
    }
    db.payments := db.payments[existing.value := p.(status := Succeeded, stripeChargeId := newCharge)];
    status := 200;
  }

  method ApplyIntentFailed(db: Db, intentId: string) returns (status: int)
    requires IntentsUnique(db.payments)
    modifies db`payments
    ensures Outcome(status, db.PaymentLedger()) == IntentFailed(old(db.PaymentLedger()), intentId)
  {
    var existing := FindByIntent(db.payments, intentId);
    if existing.Some? {
      db.payments := db.payments[existing.value := db.payments[existing.value].(status := Failed)];
    }
    status := 200;
  }

  method ApplyRefund(db: Db, chargeId: string, refunded: Option<int>, refundId: Option<string>, newRefundId: Id)
    returns (status: int)
    requires ChargesUnique(db.payments) && newRefundId !in db.refunds
    modifies db`orders, db`payments, db`refunds
    ensures old(db.refunds).Keys <= db.refunds.Keys <= old(db.refunds).Keys + {newRefundId}
    ensures forall id :: id in old(db.refunds) ==> db.refunds[id] == old(db.refunds)[id]
    ensures Outcome(status, db.PaymentLedger()) == RefundCharge(old(db.PaymentLedger()), chargeId, refunded, refundId, newRefundId)
  {
    var existing := FindByCharge(db.payments, chargeId);
    if existing.None? {
      return 200;
    }
    var p := db.payments[existing.value];
    var oid := Present(p.orderId);
    if oid.None? {
      return 200;
    }
    if oid.value !in db.orders {
      return 500;
    }
    var refund := Refund(existing.value, RefundAmount(refunded, p.amount), p.currency, "refunded", Present(refundId), "succeeded");
    var order := db.orders[oid.value];
    db.refunds := db.refunds[newRefundId := refund];
    db.payments := db.payments[existing.value := p.(status := Refunded)];
    db.orders := db.orders[oid.value := order.(status := REFUNDED, paymentStatus := Some(Refunded))];
    status := 200;
  }

  /** The webhook handler: the guards, then the event switch, on the store. */
  method HandleWebhook(db: Db, d: Delivery, event: Event, lookup: IntentLookup, now: int, newPaymentId: Id, newRefundId: Id)
    returns (status: int)
    requires db.Valid()
    requires newPaymentId !in db.payments && newRefundId !in db.refunds
    modifies db`orders, db`payments, db`refunds
    ensures old(db.refunds).Keys <= db.refunds.Keys <= old(db.refunds).Keys + {newRefundId}
    ensures forall id :: id in old(db.refunds) ==> db.refunds[id] == old(db.refunds)[id]
    ensures Outcome(status, db.PaymentLedger())
         == Webhook(old(db.PaymentLedger()), d, event, lookup, now, newPaymentId, newRefundId)
    ensures db.Valid()
  {
    if Present(d.secret).None? {
      return 500;
    }
    if Present(d.signature).None? || !d.bodyIsBuffer || !d.signatureValid {
      return 400;
    }
    ghost var before := db.PaymentLedger();
    ReconcileKeepsConsistency(before, db.products, event, lookup, now, newPaymentId, newRefundId);
    match event {
      case CheckoutSessionCompleted(orderId, paymentIntent, amountTotal, currency) =>
        status := ApplyCheckout(db, orderId, paymentIntent, amountTotal, currency, lookup, now, newPaymentId);
      case PaymentIntentSucceeded(intentId, latestCharge) =>
        status := ApplyIntentSucceeded(db, intentId, latestCharge);
      case PaymentIntentFailed(intentId) =>
        status := ApplyIntentFailed(db, intentId);
      case ChargeRefunded(chargeId, refunded, refundId) =>
        status := ApplyRefund(db, chargeId, refunded, refundId, newRefundId);
      case Other(_) =>
        status := 200;
    }
    assert db.PaymentLedger() == Reconcile(before, event, lookup, now, newPaymentId, newRefundId).ledger;
  }
}
