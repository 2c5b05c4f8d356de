/**
 * The relational store the controllers read and write: one map from primary key to
 * record per table, held by a single `Db` object. Money is kept in integer cents.
 * The consistency predicates collect the store's foreign keys and unique indexes
 * together with the invariants that the controllers themselves maintain.
 */
module Tables {
  import opened Common

  const PENDING: string := "PENDING"
  const PAID: string := "PAID"
  const REFUNDED: string := "REFUNDED"

  /** A catalog entry; `price` is in cents. Stock and listing status are never read by the core. */
  datatype Product = Product(title: string, description: Option<string>, price: int, sellerId: Id)

  datatype CartItem = CartItem(userId: Id, productId: Id, quantity: int)

  /** A line of an order: a copy of the cart line and of the product's price and title. */
  datatype OrderItem = OrderItem(productId: Id, quantity: int, priceAtPurchase: int, productName: string)

  datatype PaymentStatus = Succeeded | Failed | Refunded

  /**
   * An order with its items. `status` is the free-form string the handlers write;
   * `paymentStatus` is `None` until a payment event sets it.
   */
  datatype Order = Order(
    userId: Id,
    totalAmount: int,
    idempotencyKey: string,
    status: string,
    paymentStatus: Option<PaymentStatus>,
    items: seq<OrderItem>,
    stripeSessionId: Option<string>,
    stripePaymentIntentId: Option<string>,
    paidAt: Option<int>)

  datatype Payment = Payment(
    orderId: Option<Id>,
    amount: int,
    currency: string,
    stripePaymentIntentId: Option<string>,
    stripeChargeId: Option<string>,
    status: PaymentStatus)

  datatype Refund = Refund(
    paymentId: Id,
    amount: int,
    currency: string,
    reason: string,
    stripeRefundId: Option<string>,
    status: string)

  datatype WishlistItem = WishlistItem(userId: Id, productId: Id)

  datatype Conversation = Conversation(buyerId: Id, sellerId: Id, productId: Id)

  datatype Message = Message(conversationId: Id, senderId: Id, content: string)

  /** Σ priceAtPurchase × quantity over the items of an order. */
  function ItemsTotal(items: seq<OrderItem>): int
  {
    if items == [] then 0 else items[0].priceAtPurchase * items[0].quantity + ItemsTotal(items[1..])
  }

  /** Every cart line names a product and has a positive quantity; (user, product) is unique. */
  ghost predicate CartConsistent(cart: map<Id, CartItem>, products: map<Id, Product>)
  {
    && (forall id :: id in cart ==> cart[id].productId in products && cart[id].quantity > 0)
    && (forall a, b ::
          a in cart && b in cart && cart[a].userId == cart[b].userId && cart[a].productId == cart[b].productId
          ==> a == b)
  }

  /**
   * Every order's total is the sum of its own items (the snapshot taken when it was
   * placed), its items name products, and idempotency keys are unique.
   */
  ghost predicate OrdersConsistent(orders: map<Id, Order>, products: map<Id, Product>)
  {
    && (forall id :: id in orders ==> orders[id].totalAmount == ItemsTotal(orders[id].items))
    && (forall id, i :: id in orders && 0 <= i < |orders[id].items| ==> orders[id].items[i].productId in products)
    && (forall a, b :: a in orders && b in orders && orders[a].idempotencyKey == orders[b].idempotencyKey ==> a == b)
  }

  /** The payment-intent id and the charge id are unique where present. */
  ghost predicate IntentsUnique(payments: map<Id, Payment>)
  {
    forall a, b ::
      a in payments && b in payments && payments[a].stripePaymentIntentId.Some?
      && payments[a].stripePaymentIntentId == payments[b].stripePaymentIntentId
      ==> a == b
  }

  ghost predicate ChargesUnique(payments: map<Id, Payment>)
  {
    forall a, b ::
      a in payments && b in payments && payments[a].stripeChargeId.Some?
      && payments[a].stripeChargeId == payments[b].stripeChargeId
      ==> a == b
  }

  ghost predicate PaymentsConsistent(payments: map<Id, Payment>, orders: map<Id, Order>)
  {
    && (forall id :: id in payments && payments[id].orderId.Some? ==> payments[id].orderId.value in orders)
    && IntentsUnique(payments)
    && ChargesUnique(payments)
  }

  ghost predicate RefundsConsistent(refunds: map<Id, Refund>, payments: map<Id, Payment>)
  {
    forall id :: id in refunds ==> refunds[id].paymentId in payments
  }

  /** The three tables the payment webhook writes, taken together as one value. */
  datatype Ledger = Ledger(orders: map<Id, Order>, payments: map<Id, Payment>, refunds: map<Id, Refund>)

  ghost predicate LedgerConsistent(l: Ledger, products: map<Id, Product>)
  {
    && OrdersConsistent(l.orders, products)
    && PaymentsConsistent(l.payments, l.orders)
    && RefundsConsistent(l.refunds, l.payments)
  }

  ghost predicate WishlistConsistent(wishlist: map<Id, WishlistItem>, products: map<Id, Product>)
  {
    && (forall id :: id in wishlist ==> wishlist[id].productId in products)
    && (forall a, b ::
          a in wishlist && b in wishlist && wishlist[a] == wishlist[b] ==> a == b)
  }

  ghost predicate ConversationsConsistent(conversations: map<Id, Conversation>, products: map<Id, Product>)
  {
    && (forall id :: id in conversations ==> conversations[id].productId in products)
    && (forall a, b ::
          a in conversations && b in conversations && conversations[a] == conversations[b] ==> a == b)
  }

  ghost predicate MessagesConsistent(messages: map<Id, Message>, conversations: map<Id, Conversation>)
  {
    forall id :: id in messages ==> messages[id].conversationId in conversations
  }

  /** The store. The catalog (`products`) is read-only for every handler modelled here. */
  class Db {
    var products: map<Id, Product>
    var cartItems: map<Id, CartItem>
    var orders: map<Id, Order>
    var payments: map<Id, Payment>
    var refunds: map<Id, Refund>
    var wishlistItems: map<Id, WishlistItem>
    var conversations: map<Id, Conversation>
    var messages: map<Id, Message>

    ghost function PaymentLedger(): Ledger
      reads this`orders, this`payments, this`refunds
    {
      Ledger(orders, payments, refunds)
    }

    ghost predicate CartValid()
      reads this`products, this`cartItems
    {
      CartConsistent(cartItems, products)
    }

    ghost predicate LedgerValid()
      reads this`products, this`orders, this`payments, this`refunds
    {
      LedgerConsistent(PaymentLedger(), products)
    }

    ghost predicate WishlistValid()
      reads this`products, this`wishlistItems
    {
      WishlistConsistent(wishlistItems, products)
    }

    ghost predicate ConversationsValid()
      reads this`products, this`conversations, this`messages
    {
      ConversationsConsistent(conversations, products) && MessagesConsistent(messages, conversations)
    }

    /** The integrity rules of every table, each read only from the tables it concerns. */
    ghost predicate Valid()
      reads this
    {
      CartValid() && LedgerValid() && WishlistValid() && ConversationsValid()
    }

    /** A store holding only a catalog. */
    constructor (catalog: map<Id, Product>)
      ensures Valid()
      ensures products == catalog
      ensures cartItems == map[] && orders == map[] && payments == map[] && refunds == map[]
      ensures wishlistItems == map[] && conversations == map[] && messages == map[]
    {
      products := catalog;
      cartItems, orders, payments, refunds := map[], map[], map[], map[];
      wishlistItems, conversations, messages := map[], map[], map[];
    }
  }
}
