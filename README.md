# Stripe payment plugin for django-salesman, modelled in Dafny

This project models the decision logic of `salesman_stripe`, a payment method for the
django-salesman shop. The plugin does four things:

- It builds a Stripe checkout session for a basket or an existing order. The session has one
  line item per item and carries a `basket_<id>` / `order_<id>` reference.
- It creates the Stripe customer for the payer and writes the customer id back onto the user.
- It handles Stripe's signed webhook. It checks the verification outcome, classifies the event,
  decodes the reference, then either converts the basket into a paid order or records the
  payment on the existing order.
- It resolves its settings with defaults, and fails fast on the two required secrets.

Modules, one per concern:

- `Common`: Option and Result.
- `Text`: Python's `str()` of an integer, `int()` of a decimal string, `str.split` on `_`, and
  `str.lower`.
- `Settings`: `AppSettings` in `conf.py`.
- `Entities`: users, items, baskets, orders, payments, and the basket-or-order sum type `Payable`.
- `Reference`: the reference codec.
- `Checkout`: line items, session data, customer data, and the customer-id lookup and write-back.
- `Views`: the fixed HTTP responses and the cancel/success views.
- `Webhook`: the webhook path as a function over a value `Db` of baskets and orders.
- `Payment`: the class `StripePayment`. Its fields are the baskets, orders and users it changes
  in place, and a log of the requests it sends to Stripe.

Every Stripe SDK call is an input. `Webhook.Verification` stands for the outcome of
`construct_event`. `Payment.Reply` stands for a success with an id or URL, or a `StripeError`.
Each class method that changes state is proved equal to the matching `Webhook` function on the
old state, or states its new state directly. The properties are proved as lemmas about those
functions.

Behaviour of the code worth knowing:

- A line item's `unit_amount` is `int(item.total * 100)` (payment.py:122). `int()` truncates
  toward zero, so 10.005 is charged as 1000 cents.
- Each line is sent as a single unit priced at the line's total. A line of 2 pieces at 10.00
  has `item.total` 20.00 and is charged 2000 cents, with quantity 1.
- `save_stripe_customer_id` (payment.py:147) runs inside `get_stripe_customer`, before
  `Session.create` (payment.py:81). A failed session request therefore leaves the new customer
  id saved on the user (`Payment.StripePayment.ProcessPayment`).
- The stored-customer lookup never returns an id (see Findings). Every payment creates a new
  Stripe customer, for registered users too.
- `parse_reference` accepts an empty id (`"basket_"`).

## Model

| member | source | states |
|---|---|---|
| `Reference.GetReference` | salesman_stripe/payment.py:206-212 | a basket's reference starts with `basket_`, any other object's with `order_`, and something follows the separator |
| `Reference.ParseReference` | salesman_stripe/payment.py:214-224 | a missing reference is rejected, and a decoded id never contains `_`; `ParseReferenceIff` characterises exactly which strings it accepts |
| `Reference.ParseReferenceIff` | salesman_stripe/payment.py:214-224 | a string decodes to (kind, id) exactly when it is `basket` or `order`, then `_`, then an id without `_` (both directions) |
| `Reference.ParseGetReference` | salesman_stripe/payment.py:206-224 | decoding an object's reference gives back its kind and its id as text |
| `Reference.GetReferenceIdRoundTrip` | salesman_stripe/payment.py:206-224 | the decoded id text denotes the object's own primary key again |
| `Reference.ParseReferenceRejectsGarbage` | salesman_stripe/payment.py:219-224 | a missing reference and `"garbage"` (one piece) decode to nothing instead of raising |
| `Reference.ParseReferenceRejectsThreeParts` | salesman_stripe/payment.py:219-224 | `"basket_1_2"` (three pieces) decodes to nothing |
| `Reference.ParseReferenceRejectsUnknownKind` | salesman_stripe/payment.py:219-224 | `"widget_5"` fails the kind check and decodes to nothing |
| `Reference.ParseReferenceAcceptsEmptyId` | salesman_stripe/payment.py:219-224 | `"basket_"` decodes to basket with an empty id |
| `Reference.ParseReferenceAcceptsOrder` | salesman_stripe/payment.py:219-224 | `"order_17"` decodes to order with id text `"17"` |
| `Text.Split` | salesman_stripe/payment.py:220 | `split('_')` gives at least one piece, and no piece contains `_` |
| `Text.JoinSplit` | salesman_stripe/payment.py:220 | joining the pieces with `_` gives back the split string |
| `Text.SplitJoin` | salesman_stripe/payment.py:220 | splitting a join of `_`-free pieces gives back exactly those pieces |
| `Text.NatToString` | salesman_stripe/payment.py:211-212 | `str(obj.id)` is a non-empty string of decimal digits, so it never contains `_` |
| `Text.ParseDecimalOfNatToString` | salesman_stripe/payment.py:295 | looking up the id text of a rendered primary key finds that key again |
| `Text.NatToStringInjective` | salesman_stripe/payment.py:211-212 | distinct ids give distinct references |
| `Text.IntToString` | salesman_stripe/payment.py:124 | `str(quantity)` is digits, with a leading `-` for a negative quantity |
| `Text.Lower` | salesman_stripe/payment.py:204 | `.lower()` keeps the length and lower-cases each character |
| `Text.LowerIsLowerAndIdempotent` | salesman_stripe/payment.py:204 | the lower-cased currency has no capitals, and lower-casing again changes nothing |
| `Settings.Setting` | salesman_stripe/conf.py:57-60 | the configured value when the name is set, the supplied default otherwise |
| `Settings.RequiredSetting` | salesman_stripe/conf.py:62-71 | succeeds exactly when the name is set to a truthy value, and then gives that value; otherwise `ImproperlyConfigured("Missing `NAME` in your settings.")` |
| `Settings.SecretKey` | salesman_stripe/conf.py:7-12 | resolves exactly when `SALESMAN_STRIPE_SECRET_KEY` is set to a truthy value, to its `str()`; otherwise `ImproperlyConfigured("Missing `SALESMAN_STRIPE_SECRET_KEY` in your settings.")` |
| `Settings.WebhookSecret` | salesman_stripe/conf.py:14-19 | resolves exactly when `SALESMAN_STRIPE_WEBHOOK_SECRET` is set to a truthy value, to its `str()`; otherwise the error naming that setting |
| `Settings.FalsySecretsAreMissing` | salesman_stripe/conf.py:62-66 | a secret set to None or to `""` is an error |
| `Settings.PaymentLabel` | salesman_stripe/conf.py:21-26 | "Pay with Stripe" when unset, otherwise the `str()` of the configured value |
| `Settings.DefaultCurrency` | salesman_stripe/conf.py:28-34 | "USD" when unset, otherwise the `str()` of the configured value |
| `Settings.CancelUrl` | salesman_stripe/conf.py:36-41 | "" when unset, otherwise the `str()` of the configured value |
| `Settings.SuccessUrl` | salesman_stripe/conf.py:43-48 | "" when unset, otherwise the `str()` of the configured value |
| `Settings.PaidStatus` | salesman_stripe/conf.py:50-55 | "PROCESSING" when unset, otherwise the `str()` of the configured value |
| `Settings.ConfiguredStringsWin` | salesman_stripe/conf.py:21-55 | a configured string is returned unchanged by every optional setting |
| `Checkout.GetCurrency` | salesman_stripe/payment.py:200-204 | the configured currency lower-cased character by character: same length, each character the lower case of the one in the same place, and no capital letters |
| `Checkout.DefaultCurrencyIsUsd` | salesman_stripe/payment.py:200-204 | with no currency configured, payments are in "usd" |
| `Checkout.TruncateToInt` | salesman_stripe/payment.py:122 | `int()` truncates toward zero: within one unit of its argument, never further from zero |
| `Checkout.ProductName` | salesman_stripe/payment.py:124 | the text of the quantity, then `"x "`, then the item's name |
| `Checkout.LineItemData` | salesman_stripe/payment.py:108-128 | quantity 1, the given currency, the product name, and a unit amount equal to the line's total in cents truncated toward zero (within one cent, never further from zero) |
| `Checkout.LineItems` | salesman_stripe/payment.py:102-105 | one line item per item, in order, each built from its own item |
| `Checkout.StripeSessionData` | salesman_stripe/payment.py:96-106 | mode "payment", the given URLs and customer, a reference that decodes back to the object's kind and id, and one line item per item, built from that item |
| `Checkout.SessionDataShape` | salesman_stripe/payment.py:83-128 | mode "payment", the reference decodes to the object, the customer is passed on, and there is one line item per item: quantity 1, lower-cased configured currency, name `"{quantity}x {name}"`, amount the total in cents truncated toward zero |
| `Checkout.ProductNameShowsQuantity` | salesman_stripe/payment.py:124 | the name is the quantity's digits (which parse back to it), then `"x "`, then the item name |
| `Checkout.LineItemExample` | salesman_stripe/payment.py:119-128 | an item totalling 19.99 with quantity 3 gives `{usd, 1999, "3x Widget", quantity 1}` |
| `Checkout.TruncationNotRounding` | salesman_stripe/payment.py:122 | an item totalling 10.005 is charged 1000 cents, not 1001 |
| `Checkout.EndToEndSessionBasket42` | salesman_stripe/payment.py:96-128 | basket 42 with 2 widgets for 20.00 gives reference "basket_42" and one line item of 2000 cents named "2x Widget" |
| `Checkout.ChargedBounds` | salesman_stripe/payment.py:102-128 | for non-negative totals, the session never charges more than the items' total in cents, and charges less than one cent per item below it |
| `Checkout.GetStripeCustomerData` | salesman_stripe/payment.py:150-167 | a guest sends `{email}`, taken from the `email` attribute or else `extra['email']`, and raises KeyError whenever `extra['email']` is missing; a user sends `{email, name}`, where name is the full name or else the username |
| `Checkout.GuestEmailNeedsExtra` | salesman_stripe/payment.py:161-162 | a guest object with its own email but no `extra['email']` raises KeyError |
| `Checkout.StripeCustomerId` | salesman_stripe/payment.py:169-175 | as written, the lookup returns None for every object |
| `Checkout.StoredIdIsIgnored` | salesman_stripe/payment.py:169-175 | a user with a stored customer id still gets None from the as-written lookup |
| `Checkout.CachedCustomerId` | salesman_stripe/payment.py:169-175 | the intended lookup gives the id stored on the object's user, and only when the user has the field |
| `Checkout.WithCustomerId` | salesman_stripe/payment.py:177-187 | the same users afterwards; every user other than the object's owner is unchanged; nothing changes when the owner lacks the field or there is no owner |
| `Checkout.SaveCustomerIdEffect` | salesman_stripe/payment.py:177-187 | saving writes the id onto the object's user only when that user has the field; no other user changes; the intended lookup then reads the id back |
| `Views.CancelView` | salesman_stripe/payment.py:226-233 | redirects to the cancel URL exactly when it is non-empty, and otherwise renders `salesman_stripe/cancel.html` |
| `Views.SuccessView` | salesman_stripe/payment.py:235-242 | redirects to the success URL exactly when it is non-empty, and otherwise renders `salesman_stripe/success.html` |
| `Views.ViewsWithoutUrls` | salesman_stripe/payment.py:231-242 | with the URLs unset both views render; a URL set to None redirects to "None" |
| `Webhook.Lookup` | salesman_stripe/payment.py:293-308 | finds a key exactly when the id text is a decimal number that is stored, and then that number |
| `Webhook.CreateFromBasket` | salesman_stripe/payment.py:300-301 | a new order under the given id with the basket's owner, email, extra data and items, the given status (the configured paid status at the call) and no payments |
| `Webhook.Pay` | salesman_stripe/payment.py:314-318 | the earlier payments stay in order, the session's payment is appended last, and nothing else about the order changes |
| `Webhook.SessionCompleted` | salesman_stripe/payment.py:280-321 | one of the four responses; only "Order fulfilled" changes the store, and no order is lost, no basket appears and the next order key never goes down |
| `Webhook.HandleEvent` | salesman_stripe/payment.py:266-278 | "Event ignored" exactly for event types other than `checkout.session.completed`; only a fulfilment changes the store |
| `Webhook.WebhookView` | salesman_stripe/payment.py:244-264 | an error exactly when the webhook secret is missing, naming that setting; every answer other than "Order fulfilled" leaves the store unchanged; "Order fulfilled" needs a verified `checkout.session.completed` event |
| `Webhook.RejectedDeliveriesChangeNothing` | salesman_stripe/payment.py:246-278 | a missing webhook secret raises, an invalid payload gives 400 "Invalid payload", a bad signature gives 400 "Invalid signature", and any other event type gives 200 "Event ignored"; none of these changes the store |
| `Webhook.SessionCompletedOutcomes` | salesman_stripe/payment.py:292-311 | each response happens exactly when its condition holds: "Invalid session reference", "Missing basket", "Missing order" or "Order fulfilled"; every 400 leaves the store unchanged |
| `Webhook.SessionCompletedPreservesValid` | salesman_stripe/payment.py:292-321 | fulfilment keeps every record under its own id and order ids below the next one |
| `Webhook.BasketFulfilment` | salesman_stripe/payment.py:292-321 | a basket's reference creates exactly one order under a fresh id, with the basket's items and owner, the paid status and one payment for the session's payment intent with method "stripe"; it deletes that basket and leaves all other orders alone |
| `Webhook.BasketRedelivery` | salesman_stripe/payment.py:292-302 | delivering the same session again after the conversion gives "Missing basket" and creates no second order |
| `Webhook.OrderFulfilment` | salesman_stripe/payment.py:303-321 | an order's reference appends one payment to that order; baskets, the order keys, the order count and every other order stay the same |
| `Webhook.EndToEndBasket42` | salesman_stripe/payment.py:246-321 | a completed session for "basket_42" with total 2000 turns basket 42 into order 1 with the configured paid status and a 2000-minor-unit payment, and deletes the basket |
| `Payment.StripePayment.SaveStripeCustomerId` | salesman_stripe/payment.py:177-187 | the user table afterwards is `WithCustomerId` of the old one |
| `Payment.StripePayment.ReconcileCustomer` | salesman_stripe/payment.py:138-148 | for any looked-up id: a non-empty id is modified, and on success no customer is created; otherwise exactly one customer is created and its id saved; a create error is returned and saves nothing; a KeyError sends nothing |
| `Payment.StripePayment.GetStripeCustomer` | salesman_stripe/payment.py:130-148 | as written, every call sends exactly one create request and no modify; the new id is saved when the user has the field |
| `Payment.StripePayment.GetStripeCustomerReusingId` | salesman_stripe/payment.py:130-148 | with the intended lookup, a returning user's id is reused; if the modify fails, a new id is created and replaces the stored one |
| `Payment.StripePayment.GetStripeSessionData` | salesman_stripe/payment.py:83-106 | the customer is resolved first; on success the payload is the session data for that customer and the lower-cased configured currency |
| `Payment.StripePayment.ProcessPayment` | salesman_stripe/payment.py:49-81 | a Stripe error becomes a PaymentError with its message; a missing guest email escapes; on success it returns the session URL; the customer id stays saved even when the session request fails |
| `Payment.StripePayment.RefundPayment` | salesman_stripe/payment.py:189-198 | it requests a refund of the payment's transaction id, and reports true exactly when Stripe succeeds |
| `Payment.StripePayment.HandleWebhookSessionCompleted` | salesman_stripe/payment.py:280-321 | the in-place steps (create the order, delete the basket, pay) give the response and store that `SessionCompleted` gives; the store invariant is kept |
| `Payment.StripePayment.HandleWebhookEvent` | salesman_stripe/payment.py:266-278 | only `checkout.session.completed` reaches fulfilment; any other type answers "Event ignored" and changes nothing |
| `Payment.StripePayment.WebhookView` | salesman_stripe/payment.py:244-264 | the response and the new store are those of `Webhook.WebhookView` on the old store |

## Findings

| source | as written | input that shows it | evidently intended | confidence | as-written member | corrected member |
|---|---|---|---|---|---|---|
| salesman_stripe/payment.py:173-175 | `if not obj.user:` reads `stripe_customer_id` off the absent user and returns None; with a user it also returns None | a user whose `stripe_customer_id` is `"cus_1"`: the lookup gives None, so a new Stripe customer is created on every payment | `if obj.user:` return the id stored on the user | not executed; high | `Checkout.StripeCustomerId` (shown by `Checkout.StoredIdIsIgnored`) | `Checkout.CachedCustomerId` (read-back proved in `Checkout.SaveCustomerIdEffect`, used by `Payment.StripePayment.GetStripeCustomerReusingId`) |

`ReconcileCustomer`'s contract holds for any looked-up id, so it covers both lookups. The
payment flow (`ProcessPayment` through `GetStripeCustomer`) keeps the as-written lookup. That way
the model shows what the plugin actually sends to Stripe.

## Left out

- Stripe SDK calls (`construct_event`, `checkout.Session.create`, `Customer.create`/`modify`, `Refund.create`) are not modelled. Their outcomes are parameters, and the requests are logged in `stripeCalls`. Stripe's timestamped HMAC signature check happens inside `construct_event` and is not modelled.
- `Decimal(session.amount_total / 100)` is a float division. The payment keeps the integer `amount_total` (`Amount.FromMinorUnits`), and the model makes no claim about the decimal amount.
- `create_from_basket` and `order.pay` belong to the shop and are not part of this model. They are abstracted: create an order with the basket's owner, email, extra and items, the given status and no payments; append a payment. Status changes that `pay` may make are not modelled.
- Django ORM lookups are not modelled. Stores are keyed by integer primary keys, and a reference id is looked up only when it is a non-empty ASCII decimal string. Anything else is treated as not found, where the ORM may raise ValueError instead (`int()` also accepts surrounding spaces, signs and non-ASCII digits).
- `Text.Lower` lower-cases ASCII letters only, because Python's Unicode case mapping is not modelled.
- Routing and URLs are not modelled. `get_urls`, `reverse`/`build_absolute_uri` become the `cancelUrl`/`successUrl` parameters; `redirect`/`render` become `Views.ViewResult`. Logging and the CSRF exemption are left out.
- Setting `stripe.api_key` when the module is imported is left out. That setting reads `Settings.SecretKey`, whose failure is the import-time `ImproperlyConfigured`.
- Concurrent or out-of-order webhook delivery, and races on basket deletion, are left out as concurrency concerns. Only sequential redelivery is modelled (`Webhook.BasketRedelivery`).
- Python's `-O` would strip the kind `assert`. The model keeps the assert as an active check.
- A setting's Python value is limited to None, bool, int and str. Other types would only change `str()` and truthiness.
- Django's `get_full_name()` is taken as a stored string on the user.
