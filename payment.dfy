/** `StripePayment`: the plugin's operations that change state, performed in
    place on the shop's baskets, orders and users, with every request sent to
    Stripe appended to a log. Stripe's replies are parameters. */
module Payment {
  import opened Common
  import opened Settings
  import opened Entities
  import opened Reference
  import opened Checkout
  import opened Views
  import opened Webhook

  /** A request sent to Stripe. */
  datatype StripeCall =
    | CreateCustomer(data: CustomerData)
    | ModifyCustomer(customerId: string, data: CustomerData)
    | CreateSession(session: SessionData)
    | CreateRefund(paymentIntent: string)

  /** Stripe's answer to one request: the new object's id (a customer id, a
      session URL) or a StripeError. */
  datatype Reply = Succeeded(value: string) | Failed(message: string)

  /** The outcome of `process_payment`: the checkout URL, a PaymentError, or
      an exception it does not catch. */
  datatype PaymentResult = SessionUrl(url: string) | PaymentError(message: string) | Raised(failure: Failure)

  class StripePayment {
    const conf: Conf
    var baskets: map<nat, Basket>
    var orders: map<nat, Order>
    var nextOrderId: nat
    var users: map<UserId, User>
    var stripeCalls: seq<StripeCall>

    ghost predicate Valid()
      reads this
    {
      ValidDb(Snapshot())
    }

    function Snapshot(): Db
      reads this
    {
      Db(baskets, orders, nextOrderId)
    }

    constructor (conf: Conf, db: Db, users: map<UserId, User>)
      requires ValidDb(db)
      ensures Valid()
      ensures this.conf == conf && Snapshot() == db && this.users == users && stripeCalls == []
    {
      this.conf := conf;
      baskets, orders, nextOrderId := db.baskets, db.orders, db.nextOrderId;
      this.users := users;
      stripeCalls := [];
    }

    /** `save_stripe_customer_id`: writes the id onto the object's user when
        there is one and its model has the field. */
    method SaveStripeCustomerId(obj: Payable, customerId: string)
      requires OwnerKnown(obj, users)
      modifies this`users
      ensures users == WithCustomerId(old(users), obj, customerId)
    {
      if obj.Owner().Some? {
        var u := obj.Owner().value;
        var user := users[u];
        if user.stripeField.HasField? {
          users := users[u := user.(stripeField := HasField(Some(customerId)))];
        }
      }
    }

    /** The body of `get_stripe_customer` from the id lookup on, for a given
        looked-up id: try to modify the customer under a non-empty id, drop
        the id if that fails, and otherwise create a customer and save its
        id. */
    method ReconcileCustomer(obj: Payable, cached: Option<string>, modifyReply: Reply, createReply: Reply)
      returns (r: Result<string, Failure>)
      requires OwnerKnown(obj, users)
      modifies this`users, this`stripeCalls
      ensures var data := GetStripeCustomerData(obj, old(users));
        data.Err? ==> r == Err(data.error) && users == old(users) && stripeCalls == old(stripeCalls)
      ensures var data := GetStripeCustomerData(obj, old(users));
              var reuse := cached.Some? && cached.value != "";
        data.Ok? && reuse && modifyReply.Succeeded? ==>
          && r == Ok(cached.value)
          && users == old(users)
          && stripeCalls == old(stripeCalls) + [ModifyCustomer(cached.value, data.value)]
      ensures var data := GetStripeCustomerData(obj, old(users));
              var reuse := cached.Some? && cached.value != "";
        data.Ok? && !(reuse && modifyReply.Succeeded?) ==>
          && stripeCalls == old(stripeCalls) + (if reuse then [ModifyCustomer(cached.value, data.value)] else [])
                                             + [CreateCustomer(data.value)]
          && (createReply.Succeeded? ==>
                r == Ok(createReply.value) && users == WithCustomerId(old(users), obj, createReply.value))
          && (createReply.Failed? ==> r == Err(StripeError(createReply.message)) && users == old(users))
    {
      var data := GetStripeCustomerData(obj, users);
      if data.Err? {
        return Err(data.error);
      }
      var customerId := cached;
      if customerId.Some? && customerId.value != "" {
        stripeCalls := stripeCalls + [ModifyCustomer(customerId.value, data.value)];
        if modifyReply.Succeeded? {
          return Ok(customerId.value);
        }
        customerId := None;
      }
      stripeCalls := stripeCalls + [CreateCustomer(data.value)];
      if createReply.Failed? {
        return Err(StripeError(createReply.message));
      }
      SaveStripeCustomerId(obj, createReply.value);
      r := Ok(createReply.value);
    }

    /** `get_stripe_customer`. The id lookup as written never finds an id, so
        every call asks Stripe to create exactly one customer and never to
        modify one. */
    method GetStripeCustomer(obj: Payable, modifyReply: Reply, createReply: Reply)
      returns (r: Result<string, Failure>)
      requires OwnerKnown(obj, users)
      modifies this`users, this`stripeCalls
      ensures var data := GetStripeCustomerData(obj, old(users));
        data.Err? ==> r == Err(data.error) && users == old(users) && stripeCalls == old(stripeCalls)
      ensures var data := GetStripeCustomerData(obj, old(users));
        data.Ok? ==>
          && stripeCalls == old(stripeCalls) + [CreateCustomer(data.value)]
          && (createReply.Succeeded? ==>
                r == Ok(createReply.value) && users == WithCustomerId(old(users), obj, createReply.value))
          && (createReply.Failed? ==> r == Err(StripeError(createReply.message)) && users == old(users))
    {
      var cached := StripeCustomerId(obj);
      r := ReconcileCustomer(obj, cached, modifyReply, createReply);
    }

    /** `get_stripe_customer` with the id lookup the code evidently intends:
        a returning user's stored id is modified in place and no customer is
        created; when the modify fails, a new customer is created and its id
        replaces the stored one. */
    method GetStripeCustomerReusingId(obj: Payable, modifyReply: Reply, createReply: Reply)
      returns (r: Result<string, Failure>)
      requires OwnerKnown(obj, users)
      modifies this`users, this`stripeCalls
      ensures var data := GetStripeCustomerData(obj, old(users));
              var cached := CachedCustomerId(obj, old(users));
        data.Ok? && cached.Some? && cached.value != "" && modifyReply.Succeeded? ==>
          r == Ok(cached.value) && users == old(users)
          && stripeCalls == old(stripeCalls) + [ModifyCustomer(cached.value, data.value)]
      ensures var data := GetStripeCustomerData(obj, old(users));
              var cached := CachedCustomerId(obj, old(users));
        data.Ok? && cached.Some? && cached.value != "" && modifyReply.Failed? && createReply.Succeeded? ==>
          && r == Ok(createReply.value)
          && users == WithCustomerId(old(users), obj, createReply.value)
          && CachedCustomerId(obj, users) == Some(createReply.value)
          && stripeCalls == old(stripeCalls) + [ModifyCustomer(cached.value, data.value), CreateCustomer(data.value)]
    {
      var cached := CachedCustomerId(obj, users);
      r := ReconcileCustomer(obj, cached, modifyReply, createReply);
      if cached.Some? && createReply.Succeeded? {
        SaveCustomerIdEffect(old(users), obj, createReply.value);
      }
    }

    /** `get_stripe_session_data`: the customer first, then the payload. */
    method GetStripeSessionData(obj: Payable, modifyReply: Reply, createReply: Reply,
                                cancelUrl: string, successUrl: string)
      returns (r: Result<SessionData, Failure>)
      requires OwnerKnown(obj, users)
      modifies this`users, this`stripeCalls
      ensures var data := GetStripeCustomerData(obj, old(users));
        && (data.Err? ==> r == Err(data.error) && users == old(users) && stripeCalls == old(stripeCalls))
        && (data.Ok? ==>
              && stripeCalls == old(stripeCalls) + [CreateCustomer(data.value)]
              && (createReply.Failed? ==> r == Err(StripeError(createReply.message)) && users == old(users))
              && (createReply.Succeeded? ==>
                    && users == WithCustomerId(old(users), obj, createReply.value)
                    && r == Ok(StripeSessionData(obj, createReply.value, GetCurrency(conf), cancelUrl, successUrl))))
    {
      var customer := GetStripeCustomer(obj, modifyReply, createReply);
      if customer.Err? {
        return Err(customer.error);
      }
      r := Ok(StripeSessionData(obj, customer.value, GetCurrency(conf), cancelUrl, successUrl));
    }

    /** `process_payment` (and so `basket_payment` and `order_payment`): a
        Stripe error anywhere becomes a PaymentError; a missing guest email
        escapes. A customer id saved before the session request stays saved
        when that request fails. */
    method ProcessPayment(obj: Payable, modifyReply: Reply, createReply: Reply, sessionReply: Reply,
                          cancelUrl: string, successUrl: string)
      returns (r: PaymentResult)
      requires OwnerKnown(obj, users)
      modifies this`users, this`stripeCalls
      ensures var data := GetStripeCustomerData(obj, old(users));
        && (data.Err? ==> r == Raised(data.error) && users == old(users) && stripeCalls == old(stripeCalls))
        && (data.Ok? && createReply.Failed? ==>
              && r == PaymentError(createReply.message)
              && users == old(users)
              && stripeCalls == old(stripeCalls) + [CreateCustomer(data.value)])
        && (data.Ok? && createReply.Succeeded? ==>
              && users == WithCustomerId(old(users), obj, createReply.value)
              && stripeCalls == old(stripeCalls) + [CreateCustomer(data.value),
                   CreateSession(StripeSessionData(obj, createReply.value, GetCurrency(conf), cancelUrl, successUrl))]
              && r == (if sessionReply.Succeeded? then SessionUrl(sessionReply.value)
                       else PaymentError(sessionReply.message)))
    {
      var data := GetStripeSessionData(obj, modifyReply, createReply, cancelUrl, successUrl);
      if data.Err? {
        r := if data.error.StripeError? then PaymentError(data.error.message) else Raised(data.error);
        return;
      }
      stripeCalls := stripeCalls + [CreateSession(data.value)];
      if sessionReply.Failed? {
        return PaymentError(sessionReply.message);
      }
      r := SessionUrl(sessionReply.value);
    }

    /** `refund_payment`: asks Stripe to refund the payment's transaction id
        and reports whether it succeeded. */
    method RefundPayment(payment: Payment, reply: Reply) returns (ok: bool)
      modifies this`stripeCalls
      ensures stripeCalls == old(stripeCalls) + [CreateRefund(payment.transactionId)]
      ensures ok <==> reply.Succeeded?
    {
      stripeCalls := stripeCalls + [CreateRefund(payment.transactionId)];
      ok := reply.Succeeded?;
    }

    /** `handle_webhook_session_completed`, in place: convert or look up,
        then pay. */
    method HandleWebhookSessionCompleted(session: CheckoutSession) returns (resp: Response)
      requires Valid()
      modifies this`baskets, this`orders, this`nextOrderId
      ensures Valid()
      ensures (resp, Snapshot()) == SessionCompleted(old(Snapshot()), session, PaidStatus(conf))
    {
      SessionCompletedPreservesValid(Snapshot(), session, PaidStatus(conf));
      var ref := ParseReference(session.clientReferenceId);
      var key: nat;
      var order: Order;
      if ref.Some? && ref.value.kind == KindBasket {
        var found := Lookup(baskets, ref.value.id);
        if found.None? {
          return MissingBasket;
        }
        var basket := baskets[found.value];
        key := nextOrderId;
        order := CreateFromBasket(basket, key, PaidStatus(conf));
        orders := orders[key := order];
        nextOrderId := nextOrderId + 1;
        baskets := baskets - {found.value};
        assert orders[key := Pay(order, session)] == old(orders)[key := Pay(order, session)];
      } else if ref.Some? && ref.value.kind == KindOrder {
        var found := Lookup(orders, ref.value.id);
        if found.None? {
          return MissingOrder;
        }
        key := found.value;
        order := orders[key];
      } else {
        return InvalidReference;
      }
      orders := orders[key := Pay(order, session)];
      resp := OrderFulfilled;
    }

    /** `handle_webhook_event`: only a completed checkout session is acted on. */
    method HandleWebhookEvent(event: Event) returns (resp: Response)
      requires Valid()
      modifies this`baskets, this`orders, this`nextOrderId
      ensures Valid()
      ensures (resp, Snapshot()) == HandleEvent(old(Snapshot()), event, PaidStatus(conf))
    {
      if event.eventType == CompletedEventType {
        resp := HandleWebhookSessionCompleted(event.session);
      } else {
        resp := EventIgnored;
      }
    }

    /** `webhook_view`, given what signature verification made of the request. */
    method WebhookView(verdict: Verification) returns (r: Result<Response, ConfigError>)
      requires Valid()
      modifies this`baskets, this`orders, this`nextOrderId
      ensures Valid()
      ensures (r, Snapshot()) == Webhook.WebhookView(conf, old(Snapshot()), verdict)
    {
      var secret := WebhookSecret(conf);
      if secret.Err? {
        return Err(secret.error);
      }
      match verdict
      case PayloadInvalid =>
        r := Ok(InvalidPayload);
      case SignatureInvalid =>
        r := Ok(InvalidSignature);
      case Verified(event) =>
        var resp := HandleWebhookEvent(event);
        r := Ok(resp);
    }
  }
}
