/** The webhook path as a function of the shop's baskets and orders:
    verification outcome, event classification and fulfilment
    (`webhook_view`, `handle_webhook_event`,
    `handle_webhook_session_completed`). The class in module Payment performs
    the same steps in place and is proved equal to these functions. */
module Webhook {
  import opened Common
  import Text
  import opened Settings
  import opened Entities
  import opened Reference
  import opened Views

  const CompletedEventType := "checkout.session.completed"

  /** `StripePayment.identifier`. */
  const PaymentMethodId := "stripe"

  /** The fields of a Stripe checkout session the plugin reads. */
  datatype CheckoutSession = CheckoutSession(
    id: string,
    clientReferenceId: Option<string>,
    amountTotal: int,
    paymentIntent: string)

  datatype Event = Event(eventType: string, session: CheckoutSession)

  /** What `stripe.Webhook.construct_event` does with the body, the signature
      header and the secret: raise ValueError, raise a signature error, or
      return the event. */
  datatype Verification = PayloadInvalid | SignatureInvalid | Verified(event: Event)

  /** The shop's baskets and orders by primary key, and the next order key. */
  datatype Db = Db(baskets: map<nat, Basket>, orders: map<nat, Order>, nextOrderId: nat)

  /** Every record is stored under its own id, and order ids are below the
      next one to be handed out. */
  ghost predicate ValidDb(db: Db) {
    && (forall k :: k in db.baskets ==> db.baskets[k].id == k)
    && (forall k :: k in db.orders ==> db.orders[k].id == k && k < db.nextOrderId)
  }

  /** `objects.get(id=id)`: the key a reference id denotes, if it is stored. */
  function Lookup<V>(m: map<nat, V>, id: string): (r: Option<nat>)
    ensures r.Some? <==> Text.ParseDecimal(id).Some? && Text.ParseDecimal(id).value in m
    ensures r.Some? ==> r.value == Text.ParseDecimal(id).value
  {
    var key := Text.ParseDecimal(id);
    if key.Some? && key.value in m then key else None
  }

  /** `create_from_basket(basket, request, status=...)`, abstracted: a new
      order under the given id that takes over the basket's owner, email,
      extra data and items, with the given status and no payments yet. */
  function CreateFromBasket(basket: Basket, id: nat, status: string): (r: Order)
    ensures r.id == id && r.status == status && r.payments == []
    ensures r.owner == basket.owner && r.email == basket.email
    ensures r.extra == basket.extra && r.items == basket.items
  {
    Order(id, basket.owner, basket.email, basket.extra, basket.items, status, [])
  }

  /** The payment recorded for a completed session. */
  function CapturedPayment(session: CheckoutSession): Payment {
    Payment(FromMinorUnits(session.amountTotal), session.paymentIntent, PaymentMethodId)
  }

  /** `order.pay(...)`, abstracted as appending the payment: the earlier
      payments stay, the session's payment comes last, and nothing else
      about the order changes. */
  function Pay(order: Order, session: CheckoutSession): (r: Order)
    ensures |r.payments| == |order.payments| + 1
    ensures r.payments[..|order.payments|] == order.payments
    ensures r.payments[|order.payments|] == CapturedPayment(session)
    ensures r.(payments := order.payments) == order
  {
    order.(payments := order.payments + [CapturedPayment(session)])
  }

  /** `handle_webhook_session_completed`. It answers with one of four
      responses; only "Order fulfilled" changes the store, and then no order
      is lost, no basket appears and order keys keep counting up. */
  function SessionCompleted(db: Db, session: CheckoutSession, paidStatus: string): (r: (Response, Db))
    ensures r.0 in {InvalidReference, MissingBasket, MissingOrder, OrderFulfilled}
    ensures r.0 != OrderFulfilled ==> r.1 == db
    ensures db.orders.Keys <= r.1.orders.Keys
    ensures r.1.baskets.Keys <= db.baskets.Keys
    ensures db.nextOrderId <= r.1.nextOrderId
  {
    match ParseReference(session.clientReferenceId)
    case None => (InvalidReference, db)
    case Some(Ref(KindBasket, id)) =>
      var key := Lookup(db.baskets, id);
      if key.None? then (MissingBasket, db)
      else
        var n := db.nextOrderId;
        var order := CreateFromBasket(db.baskets[key.value], n, paidStatus);
        (OrderFulfilled, Db(db.baskets - {key.value}, db.orders[n := Pay(order, session)], n + 1))
    case Some(Ref(KindOrder, id)) =>
      var key := Lookup(db.orders, id);
      if key.None? then (MissingOrder, db)
      else (OrderFulfilled, db.(orders := db.orders[key.value := Pay(db.orders[key.value], session)]))
  }

  /** `handle_webhook_event`: "Event ignored" exactly for event types other
      than a completed checkout session, and only a fulfilment changes the
      store. */
  function HandleEvent(db: Db, event: Event, paidStatus: string): (r: (Response, Db))
    ensures r.0 == EventIgnored <==> event.eventType != CompletedEventType
    ensures r.0 != OrderFulfilled ==> r.1 == db
  {
    if event.eventType == CompletedEventType then SessionCompleted(db, event.session, paidStatus)
    else (EventIgnored, db)
  }

  /** `webhook_view`: reading the webhook secret may raise before anything
      else happens. */
  function WebhookView(conf: Conf, db: Db, verdict: Verification): (r: (Result<Response, ConfigError>, Db))
    ensures r.0.Err? <==> WebhookSecret(conf).Err?
    ensures r.0.Err? ==> r.0.error == ImproperlyConfigured(MissingMessage(WebhookSecretName))
    ensures r.0 != Ok(OrderFulfilled) ==> r.1 == db
    ensures r.0 == Ok(OrderFulfilled) ==> verdict.Verified? && verdict.event.eventType == CompletedEventType
  {
    var secret := WebhookSecret(conf);
    if secret.Err? then (Err(secret.error), db)
    else
      match verdict
      case PayloadInvalid => (Ok(InvalidPayload), db)
      case SignatureInvalid => (Ok(InvalidSignature), db)
      case Verified(event) =>
        var (resp, db') := HandleEvent(db, event, PaidStatus(conf));
        (Ok(resp), db')
  }

  /** A missing secret, an invalid payload, a bad signature and any event
      other than a completed checkout session answer without touching the
      store. */
  lemma RejectedDeliveriesChangeNothing(conf: Conf, db: Db, verdict: Verification)
    ensures WebhookSecret(conf).Err? ==> WebhookView(conf, db, verdict) == (Err(WebhookSecret(conf).error), db)
    ensures WebhookSecret(conf).Ok? && verdict.PayloadInvalid? ==>
              WebhookView(conf, db, verdict) == (Ok(InvalidPayload), db)
    ensures WebhookSecret(conf).Ok? && verdict.SignatureInvalid? ==>
              WebhookView(conf, db, verdict) == (Ok(InvalidSignature), db)
    ensures WebhookSecret(conf).Ok? && verdict.Verified? && verdict.event.eventType != CompletedEventType ==>
              WebhookView(conf, db, verdict) == (Ok(EventIgnored), db)
  {
  }

  /** Which response a completed session gets, and that every 400 leaves the
      store as it was. */
  lemma SessionCompletedOutcomes(db: Db, session: CheckoutSession, paidStatus: string)
    ensures var (resp, db') := SessionCompleted(db, session, paidStatus);
            var ref := ParseReference(session.clientReferenceId);
      && (resp == InvalidReference <==> ref.None?)
      && (resp == MissingBasket <==> ref.Some? && ref.value.kind == KindBasket && Lookup(db.baskets, ref.value.id).None?)
      && (resp == MissingOrder <==> ref.Some? && ref.value.kind == KindOrder && Lookup(db.orders, ref.value.id).None?)
      && (resp == OrderFulfilled <==>
            ref.Some? && (if ref.value.kind == KindBasket then Lookup(db.baskets, ref.value.id).Some?
                          else Lookup(db.orders, ref.value.id).Some?))
      && (resp.status == 400 ==> db' == db)
  {
  }

  /** A completed session preserves the store's invariant. */
  lemma SessionCompletedPreservesValid(db: Db, session: CheckoutSession, paidStatus: string)
    requires ValidDb(db)
    ensures ValidDb(SessionCompleted(db, session, paidStatus).1)
  {
    var db' := SessionCompleted(db, session, paidStatus).1;
    var ref := ParseReference(session.clientReferenceId);
    if ref.Some? && ref.value.kind == KindBasket && Lookup(db.baskets, ref.value.id).Some? {
      var n := db.nextOrderId;
      assert db'.orders == db.orders[n := db'.orders[n]];
      assert db'.orders[n].id == n;
    }
  }

  /** A basket's own reference converts it: exactly one new order, under a
      fresh id, holding the basket's items and owner with the paid status
      and one Stripe payment for the session's payment intent; the basket is
      deleted and nothing else changes. */
  lemma BasketFulfilment(db: Db, session: CheckoutSession, paidStatus: string, b: nat)
    requires ValidDb(db) && b in db.baskets
    requires session.clientReferenceId == Some(GetReference(PayBasket(db.baskets[b])))
    ensures var (resp, db') := SessionCompleted(db, session, paidStatus);
            var n := db.nextOrderId;
      && resp == OrderFulfilled
      && db'.baskets == db.baskets - {b}
      && n !in db.orders
      && db'.orders.Keys == db.orders.Keys + {n}
      && |db'.orders| == |db.orders| + 1
      && (forall k :: k in db.orders ==> db'.orders[k] == db.orders[k])
      && db'.orders[n].status == paidStatus
      && db'.orders[n].items == db.baskets[b].items
      && db'.orders[n].owner == db.baskets[b].owner
      && db'.orders[n].payments == [Payment(FromMinorUnits(session.amountTotal), session.paymentIntent, "stripe")]
      && ValidDb(db')
  {
    var obj := PayBasket(db.baskets[b]);
    GetReferenceIdRoundTrip(obj);
    ParseGetReference(obj);
    SessionCompletedPreservesValid(db, session, paidStatus);
    var db' := SessionCompleted(db, session, paidStatus).1;
    var n := db.nextOrderId;
    assert n !in db.orders;
    assert db'.orders.Keys == db.orders.Keys + {n};
  }

  /** Redelivering the same completed session after a basket was converted
      answers "Missing basket" and changes nothing: no second order. */
  lemma BasketRedelivery(db: Db, session: CheckoutSession, paidStatus: string, b: nat)
    requires ValidDb(db) && b in db.baskets
    requires session.clientReferenceId == Some(GetReference(PayBasket(db.baskets[b])))
    ensures var db1 := SessionCompleted(db, session, paidStatus).1;
            SessionCompleted(db1, session, paidStatus) == (MissingBasket, db1)
  {
    BasketFulfilment(db, session, paidStatus, b);
    GetReferenceIdRoundTrip(PayBasket(db.baskets[b]));
    ParseGetReference(PayBasket(db.baskets[b]));
  }

  /** An order's own reference records one Stripe payment on that order and
      leaves the baskets, the set of orders and every other order as they were. */
  lemma OrderFulfilment(db: Db, session: CheckoutSession, paidStatus: string, o: nat)
    requires ValidDb(db) && o in db.orders
    requires session.clientReferenceId == Some(GetReference(PayOrder(db.orders[o])))
    ensures var (resp, db') := SessionCompleted(db, session, paidStatus);
      && resp == OrderFulfilled
      && db'.baskets == db.baskets
      && db'.nextOrderId == db.nextOrderId
      && db'.orders.Keys == db.orders.Keys
      && |db'.orders| == |db.orders|
      && (forall k :: k in db.orders && k != o ==> db'.orders[k] == db.orders[k])
      && db'.orders[o] == db.orders[o].(payments := db.orders[o].payments + [CapturedPayment(session)])
  {
    var obj := PayOrder(db.orders[o]);
    GetReferenceIdRoundTrip(obj);
    ParseGetReference(obj);
    var db' := SessionCompleted(db, session, paidStatus).1;
    assert db'.orders.Keys == db.orders.Keys;
  }

  /** Basket 42 with one item of two widgets totalling 20.00, paid for 2000
      cents: the webhook turns it into an order with the configured paid
      status and a 2000-cent payment, and deletes the basket. */
  lemma EndToEndBasket42(conf: Conf, session: CheckoutSession)
    requires WebhookSecret(conf).Ok?
    requires session.clientReferenceId == Some("basket_42") && session.amountTotal == 2000
    ensures var basket := Basket(42, Some(7), None, map[], [Item("Widget", 2, 20.0)]);
            var db := Db(map[42 := basket], map[], 1);
            var (resp, db') := WebhookView(conf, db, Verified(Event(CompletedEventType, session)));
      && resp == Ok(OrderFulfilled)
      && db'.baskets == map[]
      && db'.orders.Keys == {1}
      && db'.orders[1].status == PaidStatus(conf)
      && db'.orders[1].items == basket.items
      && db'.orders[1].payments == [Payment(FromMinorUnits(2000), session.paymentIntent, "stripe")]
  {
    var basket := Basket(42, Some(7), None, map[], [Item("Widget", 2, 20.0)]);
    var db := Db(map[42 := basket], map[], 1);
    assert GetReference(PayBasket(basket)) == "basket_42" by {
      assert Text.NatToString(42) == "42";
    }
    var event := Event(CompletedEventType, session);
    var ps := PaidStatus(conf);
    var db' := SessionCompleted(db, session, ps).1;
    assert HandleEvent(db, event, ps) == SessionCompleted(db, session, ps);
    BasketFulfilment(db, session, ps, 42);
    assert SessionCompleted(db, session, ps).0 == OrderFulfilled;
    assert WebhookView(conf, db, Verified(event)) == (Ok(OrderFulfilled), db');
    assert db'.orders.Keys == {1};
    assert db.baskets - {42} == map[];
  }
}
