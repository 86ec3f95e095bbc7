/** The request payloads the plugin sends to Stripe when a payment starts:
    the checkout session with one line item per basket or order item, and
    the customer attributes. Also the lookup and write-back of the Stripe
    customer id on the user. */
module Checkout {
  import opened Common
  import Text
  import opened Settings
  import opened Entities
  import opened Reference

  /** A `line_items` entry: price data in the smallest currency unit and a
      quantity field. */
  datatype LineItem = LineItem(currency: string, unitAmount: int, productName: string, quantity: int)

  /** The keyword arguments of `checkout.Session.create`. */
  datatype SessionData = SessionData(
    mode: string,
    cancelUrl: string,
    successUrl: string,
    clientReferenceId: string,
    customer: string,
    lineItems: seq<LineItem>)

  /** The keyword arguments of `Customer.create` / `Customer.modify`. */
  datatype CustomerData = GuestCustomer(email: string) | UserCustomer(email: string, name: string)

  /** Exceptions that leave the checkout code: a missing `extra['email']`
      (KeyError) and a Stripe API error. */
  datatype Failure = KeyError(key: string) | StripeError(message: string)

  /** `get_currency`: the configured currency, lower-cased. */
  function GetCurrency(conf: Conf): (c: string)
    ensures |c| == |DefaultCurrency(conf)|
    ensures forall i :: 0 <= i < |c| ==> c[i] == Text.LowerChar(DefaultCurrency(conf)[i])
    ensures forall i :: 0 <= i < |c| ==> !Text.IsUpper(c[i])
  {
    Text.LowerIsLowerAndIdempotent(DefaultCurrency(conf));
    Text.Lower(DefaultCurrency(conf))
  }

  /** Unless configured otherwise, payments are in "usd". */
  lemma DefaultCurrencyIsUsd(conf: Conf)
    requires DefaultCurrencyName !in conf
    ensures GetCurrency(conf) == "usd"
  {
    assert DefaultCurrency(conf) == "USD";
    assert Text.Lower("USD") == "usd";
  }

  /** Python's `int()` of a Decimal: truncation toward zero. */
  function TruncateToInt(x: real): (r: int)
    ensures x >= 0.0 ==> 0 <= r && r as real <= x < r as real + 1.0
    ensures x < 0.0 ==> r <= 0 && r as real - 1.0 < x <= r as real
  {
    if x >= 0.0 then x.Floor else -((-x).Floor)
  }

  /** The product name `"{quantity}x {name}"`: the quantity's text, then
      "x ", then the item's name. */
  function ProductName(item: Item): (r: string)
    ensures var k := |r| - |item.name| - 2;
      && 1 <= k
      && r[..k] == Text.IntToString(item.quantity)
      && r[k..] == "x " + item.name
  {
    Text.IntToString(item.quantity) + "x " + item.name
  }

  /** `get_stripe_line_item_data`: one unit of the whole line, priced at the
      line's total in cents truncated toward zero. */
  function LineItemData(item: Item, currency: string): (r: LineItem)
    ensures r.quantity == 1 && r.currency == currency && r.productName == ProductName(item)
    ensures item.total >= 0.0 ==> 0 <= r.unitAmount && r.unitAmount as real <= item.total * 100.0 < r.unitAmount as real + 1.0
    ensures item.total < 0.0 ==> r.unitAmount <= 0 && r.unitAmount as real - 1.0 < item.total * 100.0 <= r.unitAmount as real
  {
    LineItem(currency, TruncateToInt(item.total * 100.0), ProductName(item), 1)
  }

  /** The list comprehension over `obj.get_items()`. */
  function LineItems(items: seq<Item>, currency: string): (r: seq<LineItem>)
    ensures |r| == |items|
    ensures forall i :: 0 <= i < |items| ==> r[i] == LineItemData(items[i], currency)
  {
    if |items| == 0 then [] else [LineItemData(items[0], currency)] + LineItems(items[1..], currency)
  }

  /** `get_stripe_session_data`, once the customer id is known. */
  function StripeSessionData(obj: Payable, customerId: string, currency: string,
                             cancelUrl: string, successUrl: string): (r: SessionData)
    ensures r.mode == "payment" && r.customer == customerId
    ensures r.cancelUrl == cancelUrl && r.successUrl == successUrl
    ensures ParseReference(Some(r.clientReferenceId)) == Some(Ref(KindOf(obj), Text.NatToString(obj.Id())))
    ensures |r.lineItems| == |obj.Items()|
    ensures forall i :: 0 <= i < |r.lineItems| ==> r.lineItems[i] == LineItemData(obj.Items()[i], currency)
  {
    ParseGetReference(obj);
    SessionData("payment", cancelUrl, successUrl, GetReference(obj), customerId,
                LineItems(obj.Items(), currency))
  }

  /** A one-off payment that carries the object's reference and customer, and
      one line item per item, in order: quantity 1, the configured currency,
      the item's total in cents truncated toward zero, and the name
      `"{quantity}x {name}"`. */
  lemma SessionDataShape(obj: Payable, customerId: string, conf: Conf, cancelUrl: string, successUrl: string)
    ensures var d := StripeSessionData(obj, customerId, GetCurrency(conf), cancelUrl, successUrl);
      && d.mode == "payment"
      && ParseReference(Some(d.clientReferenceId)) == Some(Ref(KindOf(obj), Text.NatToString(obj.Id())))
      && d.customer == customerId
      && |d.lineItems| == |obj.Items()|
      && forall i :: 0 <= i < |d.lineItems| ==>
           var li, item := d.lineItems[i], obj.Items()[i];
           && li.quantity == 1
           && li.currency == Text.Lower(DefaultCurrency(conf))
           && li.productName == Text.IntToString(item.quantity) + "x " + item.name
           && (item.total >= 0.0 ==> li.unitAmount as real <= item.total * 100.0 < li.unitAmount as real + 1.0)
           && (item.total < 0.0 ==> li.unitAmount as real - 1.0 < item.total * 100.0 <= li.unitAmount as real)
  {
    ParseGetReference(obj);
  }

  /** The product name starts with the decimal quantity, then "x ", then the
      item name, so the quantity can be read back off it. */
  lemma ProductNameShowsQuantity(item: Item)
    requires item.quantity >= 0
    ensures var s, k := ProductName(item), |Text.NatToString(item.quantity)|;
      && k + 2 <= |s|
      && Text.ParseDecimal(s[..k]) == Some(item.quantity)
      && s[k..k + 2] == "x "
      && s[k + 2..] == item.name
  {
    var q := Text.NatToString(item.quantity);
    var s := ProductName(item);
    assert s == q + "x " + item.name;
    assert s[..|q|] == q;
    Text.ParseDecimalOfNatToString(item.quantity);
  }

  /** A line item priced 19.99 for 3 pieces is charged 1999 cents once. */
  lemma LineItemExample()
    ensures LineItemData(Item("Widget", 3, 19.99), "usd") == LineItem("usd", 1999, "3x Widget", 1)
  {
    assert TruncateToInt(19.99 * 100.0) == 1999;
    assert Text.IntToString(3) == "3";
  }

  /** Cents truncate toward zero: 10.005 is charged as 1000. */
  lemma TruncationNotRounding()
    ensures LineItemData(Item("Widget", 1, 10.005), "usd").unitAmount == 1000
  {
    assert TruncateToInt(10.005 * 100.0) == 1000;
  }

  /** Basket 42 holding two widgets for 20.00 in total, in a shop with the
      default currency: reference "basket_42" and one line item of 2000
      cents named "2x Widget", quantity 1. */
  lemma EndToEndSessionBasket42(conf: Conf, customerId: string, cancelUrl: string, successUrl: string)
    requires DefaultCurrencyName !in conf
    ensures var basket := Basket(42, Some(7), None, map[], [Item("Widget", 2, 20.0)]);
            var d := StripeSessionData(PayBasket(basket), customerId, GetCurrency(conf), cancelUrl, successUrl);
      && d.clientReferenceId == "basket_42"
      && d.lineItems == [LineItem("usd", 2000, "2x Widget", 1)]
  {
    var item := Item("Widget", 2, 20.0);
    var basket := Basket(42, Some(7), None, map[], [item]);
    assert Text.NatToString(42) == "42";
    assert GetReference(PayBasket(basket)) == "basket_42";
    assert Text.IntToString(2) == "2";
    assert TruncateToInt(20.0 * 100.0) == 2000;
    DefaultCurrencyIsUsd(conf);
    assert LineItemData(item, "usd") == LineItem("usd", 2000, "2x Widget", 1);
    var lis := LineItems(basket.items, "usd");
    assert |lis| == 1 && lis[0] == LineItem("usd", 2000, "2x Widget", 1);
  }

  /** What Stripe charges for a list of line items. */
  function Charged(lineItems: seq<LineItem>): int {
    if |lineItems| == 0 then 0 else lineItems[0].unitAmount * lineItems[0].quantity + Charged(lineItems[1..])
  }

  function ItemsTotal(items: seq<Item>): real {
    if |items| == 0 then 0.0 else items[0].total + ItemsTotal(items[1..])
  }

  /** For non-negative item totals the session charges at most the items'
      total in cents, and less than one cent per item below it. */
  lemma {:induction false} ChargedBounds(items: seq<Item>, currency: string)
    requires forall i :: 0 <= i < |items| ==> items[i].total >= 0.0
    ensures var c := Charged(LineItems(items, currency)) as real;
      && c <= 100.0 * ItemsTotal(items)
      && (|items| > 0 ==> 100.0 * ItemsTotal(items) - c < |items| as real)
  {
    if |items| > 0 {
      var lis := LineItems(items, currency);
      ChargedBounds(items[1..], currency);
      assert lis[1..] == LineItems(items[1..], currency);
      assert lis[0].quantity == 1;
    }
  }

  /** `get_stripe_customer_data`. A guest sends only an email: the object's
      `email` attribute if it has one, else `extra['email']`; but the
      fallback is evaluated first, so a missing `extra['email']` raises even
      when the attribute exists. A user sends the user's email and the full
      name, or the username when the full name is empty. */
  function GetStripeCustomerData(obj: Payable, users: map<UserId, User>): (r: Result<CustomerData, Failure>)
    requires OwnerKnown(obj, users)
    ensures obj.Owner().None? ==> (r.Ok? <==> "email" in obj.Extra())
    ensures obj.Owner().None? && r.Ok? ==>
              r.value == GuestCustomer(if obj.Email().Some? then obj.Email().value else obj.Extra()["email"])
    ensures obj.Owner().None? && r.Err? ==> r.error == KeyError("email")
    ensures obj.Owner().Some? ==>
              var user := users[obj.Owner().value];
              && r.Ok? && r.value.UserCustomer?
              && r.value.email == user.email
              && r.value.name == (if user.fullName != "" then user.fullName else user.username)
  {
    match obj.Owner()
    case None =>
      if "email" !in obj.Extra() then Err(KeyError("email"))
      else
        var fallback := obj.Extra()["email"];
        Ok(GuestCustomer(if obj.Email().Some? then obj.Email().value else fallback))
    case Some(u) =>
      var user := users[u];
      Ok(UserCustomer(user.email, if user.fullName != "" then user.fullName else user.username))
  }

  /** An order that has its own email still needs `extra['email']`. */
  lemma GuestEmailNeedsExtra(obj: Payable, users: map<UserId, User>)
    requires obj.Owner().None? && obj.Email().Some? && "email" !in obj.Extra()
    ensures GetStripeCustomerData(obj, users) == Err(KeyError("email"))
  {
  }

  /** `get_stripe_customer_id` as written: for an object without a user it
      reads the field off `None`, which gives the default None, and for an
      object with a user it returns None. */
  function StripeCustomerId(obj: Payable): (r: Option<string>)
    ensures r == None
  {
    if obj.Owner().None? then None else None
  }

  /** Whether `save_stripe_customer_id` writes: a user exists and has the field. */
  predicate HasCustomerField(obj: Payable, users: map<UserId, User>)
    requires OwnerKnown(obj, users)
  {
    obj.Owner().Some? && users[obj.Owner().value].stripeField.HasField?
  }

  /** What `get_stripe_customer_id` evidently means: the id stored on the
      object's user, when there is a user and the field exists. */
  function CachedCustomerId(obj: Payable, users: map<UserId, User>): (r: Option<string>)
    requires OwnerKnown(obj, users)
    ensures r.Some? ==> HasCustomerField(obj, users) && users[obj.Owner().value].stripeField.customerId == r
    ensures HasCustomerField(obj, users) ==> r == users[obj.Owner().value].stripeField.customerId
  {
    match obj.Owner()
    case None => None
    case Some(u) =>
      match users[u].stripeField
      case NoField => None
      case HasField(id) => id
  }

  /** The as-written lookup ignores an id that is stored on the user. */
  lemma StoredIdIsIgnored(obj: Payable, users: map<UserId, User>, id: string)
    requires obj.Owner().Some? && obj.Owner().value in users
    requires users[obj.Owner().value].stripeField == HasField(Some(id))
    ensures CachedCustomerId(obj, users) == Some(id)
    ensures StripeCustomerId(obj) == None
  {
  }

  /** The user table after `save_stripe_customer_id(obj, customerId)`. */
  function WithCustomerId(users: map<UserId, User>, obj: Payable, customerId: string): (r: map<UserId, User>)
    requires OwnerKnown(obj, users)
    ensures r.Keys == users.Keys
    ensures forall u :: u in users && obj.Owner() != Some(u) ==> r[u] == users[u]
    ensures !HasCustomerField(obj, users) ==> r == users
  {
    if HasCustomerField(obj, users) then
      var u := obj.Owner().value;
      users[u := users[u].(stripeField := HasField(Some(customerId)))]
    else users
  }

  /** Saving writes the id only onto the object's user, and only when the
      field exists; no other user and no other attribute changes. A saved id
      is what the intended lookup reads back. */
  lemma SaveCustomerIdEffect(users: map<UserId, User>, obj: Payable, customerId: string)
    requires OwnerKnown(obj, users)
    ensures var after := WithCustomerId(users, obj, customerId);
      && after.Keys == users.Keys
      && (forall u :: u in users && (obj.Owner() != Some(u) || !HasCustomerField(obj, users)) ==> after[u] == users[u])
      && (HasCustomerField(obj, users) ==>
            after[obj.Owner().value] == users[obj.Owner().value].(stripeField := HasField(Some(customerId))))
      && OwnerKnown(obj, after)
      && CachedCustomerId(obj, after) == (if HasCustomerField(obj, users) then Some(customerId) else None)
  {
  }
}
