/**
 * The order controller: the caller's orders, one order by id, placing an order from
 * the caller's cart, and the administrative status update.
 *
 * Placing an order is two separate writes: the order (with its items) is created, and
 * then the caller's cart lines are deleted. `clearFails` stands for a store failure
 * between the two, after which the order exists, the cart is untouched and the caller
 * is answered with 500.
 */
module OrderController {
  import opened Common
  import opened Tables
  import opened CartController

  /** The order item copied from one cart line: the product, the quantity, and the product's price and title. */
  function SnapshotLine(cart: map<Id, CartItem>, products: map<Id, Product>, id: Id): (item: OrderItem)
    requires id in cart && cart[id].productId in products
    ensures item.productId == cart[id].productId && item.quantity == cart[id].quantity
    ensures item.priceAtPurchase == products[cart[id].productId].price
    ensures item.productName == products[cart[id].productId].title
  {
    var line := cart[id];
    OrderItem(line.productId, line.quantity, products[line.productId].price, products[line.productId].title)
  }

  /** The items of a new order: one per listed cart line, in the order of the listing. */
  function Snapshot(cart: map<Id, CartItem>, products: map<Id, Product>, ids: seq<Id>): (items: seq<OrderItem>)
    requires Priced(cart, products, ids)
    ensures |items| == |ids|
    ensures forall i :: 0 <= i < |ids| ==> items[i] == SnapshotLine(cart, products, ids[i])
  {
    if ids == [] then [] else [SnapshotLine(cart, products, ids[0])] + Snapshot(cart, products, ids[1..])
  }

  /** The total of the snapshot, summed over its own copied prices, is the cart total. */
  lemma {:induction false} SnapshotTotal(cart: map<Id, CartItem>, products: map<Id, Product>, ids: seq<Id>)
    requires Priced(cart, products, ids)
    ensures ItemsTotal(Snapshot(cart, products, ids)) == LinesTotal(cart, products, ids)
  {
    if ids != [] {
      var items := Snapshot(cart, products, ids);
      assert items[1..] == Snapshot(cart, products, ids[1..]);
      SnapshotTotal(cart, products, ids[1..]);
    }
  }

  /** A freshly placed order: PENDING, with no payment, session or payment intent yet. */
  function NewOrder(user: Id, items: seq<OrderItem>, total: int, key: string): (o: Order)
    ensures o.userId == user && o.items == items && o.idempotencyKey == key && o.totalAmount == total
    ensures o.status == PENDING && o.paymentStatus.None? && o.paidAt.None?
    ensures o.stripeSessionId.None? && o.stripePaymentIntentId.None?
  {
    Order(user, total, key, PENDING, None, items, None, None, None)
  }

  /** The cart after `deleteMany({ userId })`: every line of other users, and none of `user`'s. */
  function OtherUsersLines(cart: map<Id, CartItem>, user: Id): (r: map<Id, CartItem>)
    ensures forall id :: id in r <==> id in cart && cart[id].userId != user
    ensures forall id :: id in r ==> r[id] == cart[id]
    ensures !HasLines(r, user)
  {
    map id | id in cart && cart[id].userId != user :: cart[id]
  }

  /** Adding an order whose total is the sum of its items, under a fresh id and key, keeps the ledger consistent. */
  lemma PlaceKeepsLedger(l: Ledger, products: map<Id, Product>, id: Id, order: Order)
    requires LedgerConsistent(l, products)
    requires id !in l.orders
    requires order.totalAmount == ItemsTotal(order.items)
    requires forall i :: 0 <= i < |order.items| ==> order.items[i].productId in products
    requires forall o :: o in l.orders ==> l.orders[o].idempotencyKey != order.idempotencyKey
    ensures LedgerConsistent(l.(orders := l.orders[id := order]), products)
  {
  }

  /** Deleting some lines keeps the cart consistent. */
  lemma ClearKeepsCart(cart: map<Id, CartItem>, products: map<Id, Product>, user: Id)
    requires CartConsistent(cart, products)
    ensures CartConsistent(OtherUsersLines(cart, user), products)
  {
  }

  /** The caller's orders, keyed by id. */
  method GetMyOrders(db: Db, caller: Option<Id>) returns (r: Reply<map<Id, Order>>)
    requires db.Valid()
    ensures caller.None? ==> r == Failure(401)
    ensures caller.Some? ==> r.Success? && r.status == 200
    ensures caller.Some? && r.Success? ==>
      && (forall id :: id in r.data <==> id in db.orders && db.orders[id].userId == caller.value)
      && (forall id :: id in r.data ==> r.data[id] == db.orders[id])
  {
    if caller.None? {
      return Failure(401);
    }
    var orders := db.orders;
    r := Success(200, map id | id in orders && orders[id].userId == caller.value :: orders[id]);
  }

  /** One order, found only when both its id and its owner match; any other order is "not found". */
  method GetOrderById(db: Db, caller: Option<Id>, orderId: Option<Id>) returns (r: Reply<Order>)
    requires db.Valid()
    ensures caller.None? ==> r == Failure(401)
    ensures caller.Some? && Present(orderId).None? ==> r == Failure(400)
    ensures caller.Some? && Present(orderId).Some? ==>
      if orderId.value in db.orders && db.orders[orderId.value].userId == caller.value
      then r == Success(200, db.orders[orderId.value])
      else r == Failure(404)
    ensures r.Success? ==> r.data.userId == caller.value
  {
    if caller.None? {
      return Failure(401);
    }
    if Present(orderId).None? {
      return Failure(400);
    }
    var id := orderId.value;
    if !(id in db.orders && db.orders[id].userId == caller.value) {
      return Failure(404);
    }
    r := Success(200, db.orders[id]);
  }

  /** `order.create`: the new order under a fresh id; no other table changes. */
  method InsertOrder(db: Db, orderId: Id, order: Order)
    requires db.Valid() && orderId !in db.orders
    requires order.totalAmount == ItemsTotal(order.items)
    requires forall i :: 0 <= i < |order.items| ==> order.items[i].productId in db.products
    requires forall id :: id in db.orders ==> db.orders[id].idempotencyKey != order.idempotencyKey
    modifies db`orders
    ensures db.Valid()
    ensures db.orders == old(db.orders)[orderId := order]
  {
    ghost var ledger := db.PaymentLedger().(orders := db.orders[orderId := order]);
    PlaceKeepsLedger(db.PaymentLedger(), db.products, orderId, order);
    db.orders := db.orders[orderId := order];
    assert db.PaymentLedger() == ledger;
  }

  /** `cartItem.deleteMany({ userId })`: every line of `user` is deleted; no other table changes. */
  method ClearCart(db: Db, user: Id)
    requires db.Valid()
    modifies db`cartItems
    ensures db.Valid()
    ensures db.cartItems == OtherUsersLines(old(db.cartItems), user)
  {
    ClearKeepsCart(db.cartItems, db.products, user);
    db.cartItems := OtherUsersLines(db.cartItems, user);
  }

  /**
   * Place an order from the caller's cart: the items copy the listed lines with the
   * products' current prices and titles, the total is Σ price × quantity over those
   * lines, and then the caller's lines (and only theirs) are deleted.
   */
  method CreateOrderFromCart(db: Db, caller: Option<Id>, listing: seq<Id>, orderId: Id, idempotencyKey: string,
                             clearFails: bool)
    returns (r: Reply<Order>)
    requires db.Valid()
    requires caller.Some? ==> IsListing(db.cartItems, caller.value, listing)
    requires orderId !in db.orders
    requires forall id :: id in db.orders ==> db.orders[id].idempotencyKey != idempotencyKey
    modifies db`orders, db`cartItems
    ensures db.Valid()
    ensures caller.None? ==> r == Failure(401) && db.orders == old(db.orders) && db.cartItems == old(db.cartItems)
    ensures caller.Some? && !HasLines(old(db.cartItems), caller.value) ==>
      r == Failure(400) && db.orders == old(db.orders) && db.cartItems == old(db.cartItems)
    ensures caller.Some? && HasLines(old(db.cartItems), caller.value) ==>
      && Priced(old(db.cartItems), db.products, listing)
      && var items := Snapshot(old(db.cartItems), db.products, listing);
         var order := NewOrder(caller.value, items, LinesTotal(old(db.cartItems), db.products, listing), idempotencyKey);
         && order.totalAmount == ItemsTotal(order.items)
         && db.orders == old(db.orders)[orderId := order]
         && (clearFails ==> r == Failure(500) && db.cartItems == old(db.cartItems))
         && (!clearFails ==> r == Success(201, order) && db.cartItems == OtherUsersLines(old(db.cartItems), caller.value))
  {
    if caller.None? {
      return Failure(401);
    }
    var user := caller.value;
    ListingEmptyIffNoLines(db.cartItems, user, listing);
    if |listing| == 0 {
      return Failure(400);
    }
    var cart := db.cartItems;
    ListingPriced(cart, db.products, user, listing);
    var totalAmount := LinesTotal(cart, db.products, listing);
    var items := Snapshot(cart, db.products, listing);
    SnapshotTotal(cart, db.products, listing);
    var order := NewOrder(user, items, totalAmount, idempotencyKey);
    InsertOrder(db, orderId, order);
    if clearFails {
      return Failure(500);
    }
    ClearCart(db, user);
    r := Success(201, order);
  }

  /**
   * Overwrite the status of one order. The status is any non-empty string; an order id
   * that names no order makes the update throw, which is answered with 500.
   */
  method UpdateOrderStatus(db: Db, orderId: Option<Id>, status: Option<string>) returns (r: Reply<Order>)
    requires db.Valid()
    modifies db`orders
    ensures db.Valid()
    ensures Present(orderId).None? ==> r == Failure(400) && db.orders == old(db.orders)
    ensures Present(orderId).Some? && Present(status).None? ==> r == Failure(400) && db.orders == old(db.orders)
    ensures Present(orderId).Some? && Present(status).Some? ==>
      if orderId.value in old(db.orders) then
        var order := old(db.orders)[orderId.value].(status := status.value);
        db.orders == old(db.orders)[orderId.value := order] && r == Success(200, order)
      else
        r == Failure(500) && db.orders == old(db.orders)
  {
    if Present(orderId).None? {
      return Failure(400);
    }
    if Present(status).None? {
      return Failure(400);
    }
    var id := orderId.value;
    if id !in db.orders {
      return Failure(500);
    }
    var order := db.orders[id].(status := status.value);
    db.orders := db.orders[id := order];
    r := Success(200, order);
  }
}
