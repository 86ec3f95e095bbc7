/** The records the plugin reads and writes, as it sees them: users, basket
    and order items, baskets, orders and their payments. The basket/order
    persistence belongs to the surrounding shop; only the fields the plugin
    touches are kept. */
module Entities {
  import opened Common

  type UserId = nat

  /** Whether the user model carries a `stripe_customer_id` field, and its value. */
  datatype StripeField = NoField | HasField(customerId: Option<string>)

  /** A user; `fullName` is what `get_full_name()` returns. */
  datatype User = User(email: string, fullName: string, username: string, stripeField: StripeField)

  /** A basket or order line: its name, quantity and exact decimal total. */
  datatype Item = Item(name: string, quantity: int, total: real)

  /** `email` is the object's `email` attribute when it has one; `extra` is its
      JSON extra data restricted to string values. */
  datatype Basket = Basket(
    id: nat,
    owner: Option<UserId>,
    email: Option<string>,
    extra: map<string, string>,
    items: seq<Item>)

  /** The amount passed to `order.pay`: `Decimal(amount_total / 100)`, kept as
      the integer amount in minor units it is computed from. */
  datatype Amount = FromMinorUnits(amountTotal: int)

  datatype Payment = Payment(amount: Amount, transactionId: string, paymentMethod: string)

  datatype Order = Order(
    id: nat,
    owner: Option<UserId>,
    email: Option<string>,
    extra: map<string, string>,
    items: seq<Item>,
    status: string,
    payments: seq<Payment>)

  /** What a payment is made for: a basket or an existing order. */
  datatype Payable = PayBasket(basket: Basket) | PayOrder(order: Order) {
    function Id(): nat {
      if PayBasket? then basket.id else order.id
    }

    function Owner(): Option<UserId> {
      if PayBasket? then basket.owner else order.owner
    }

    function Email(): Option<string> {
      if PayBasket? then basket.email else order.email
    }

    function Extra(): map<string, string> {
      if PayBasket? then basket.extra else order.extra
    }

    function Items(): seq<Item> {
      if PayBasket? then basket.items else order.items
    }
  }

  /** The owner of `obj`, if any, is a known user. */
  predicate OwnerKnown(obj: Payable, users: map<UserId, User>) {
    obj.Owner().Some? ==> obj.Owner().value in users
  }
}
