/**
 * The Stripe webhook (convex/webhooks.ts): check the signature header and the
 * secret, verify the event, and dispatch on its kind: a completed checkout
 * marks the order paid and sends the session's details, an expired one marks
 * it canceled, anything else is acknowledged and ignored. As written the
 * details call carries an argument its validator does not declare and is
 * always rejected; `StripeWebhookCorrected` is the handler without it.
 *
 * Signature verification (`constructEventAsync`) and `sessions.retrieve` are
 * function parameters. Each mutation the handler runs commits on its own; a
 * mutation that throws ends the handler with `Thrown`, keeping what earlier
 * mutations wrote.
 */
module Webhooks {
  import opened Wrappers
  import opened Text
  import opened Pricing
  import opened Records
  import opened Checkout

  // ---------------------------------------------------------------------------
  // Payloads

  /** The session object inside an event: its id and the order id from its metadata. */
  datatype EventSession = EventSession(id: string, metadataOrderId: Option<string>)

  /** Verified events, by the `type` the handler switches on. */
  datatype Event =
    | SessionCompleted(session: EventSession)
    | SessionExpired(session: EventSession)
    | OtherEvent(eventType: string)

  function EventType(e: Event): string {
    match e
    case SessionCompleted(_) => "checkout.session.completed"
    case SessionExpired(_) => "checkout.session.expired"
    case OtherEvent(t) => t
  }

  /** A Stripe address; `None` is a null field. */
  datatype StripeAddressFields = StripeAddressFields(
    line1: Option<string>,
    line2: Option<string>,
    city: Option<string>,
    state: Option<string>,
    postalCode: Option<string>,
    country: Option<string>)

  datatype CustomerDetails = CustomerDetails(email: Option<string>, name: Option<string>, address: Option<StripeAddressFields>)

  /** `payment_intent`: an id, an expanded object carrying its id, or null. */
  datatype PaymentIntentRef = IntentId(id: string) | IntentObject(objectId: string) | NoIntent

  /** The fields of a retrieved checkout session the handler reads; amounts are in cents. */
  datatype RetrievedSession = RetrievedSession(
    livemode: bool,
    amountTotalCents: Option<int>,
    amountTaxCents: Option<int>,
    customerDetails: Option<CustomerDetails>,
    paymentIntent: PaymentIntentRef,
    shippingAddress: Option<StripeAddressFields>)

  // ---------------------------------------------------------------------------
  // The payload mapping

  /** `cents ? cents / 100 : undefined`: dollars, with a missing or zero amount sent as absent. */
  function AmountFromCents(cents: Option<int>): (r: Option<real>)
    ensures r.Some? <==> cents.Some? && cents.value != 0
    ensures r.Some? ==> 100.0 * r.value == cents.value as real
  {
    if cents.Some? && cents.value != 0 then Some(cents.value as real / 100.0) else None
  }

  /** A non-zero whole-cent amount sent to Stripe in cents comes back as the same amount. */
  lemma AmountRoundTrip(x: real)
    requires WholeCents(x) && x != 0.0
    ensures AmountFromCents(Some(JsRound(x * 100.0))) == Some(x)
  {
    UnitAmountOfWholeCents(x);
  }

  /** A zero total is not stored: it leaves whatever amount the order already had. */
  lemma ZeroAmountIsAbsent(o: Order, d: DetailsPatch)
    requires d.amountTotal == AmountFromCents(Some(0))
    ensures ApplyDetails(o, d).amountTotal == o.amountTotal
  {
  }

  function PaymentIntentIdOf(p: PaymentIntentRef): (r: Option<string>)
    ensures p.IntentId? ==> r == Some(p.id)
    ensures p.IntentObject? ==> r == Some(p.objectId)
    ensures p.NoIntent? ==> r.None?
  {
    match p
    case IntentId(id) => Some(id)
    case IntentObject(id) => Some(id)
    case NoIntent => None
  }

  /** An address is copied field by field, and only when there is one. */
  function CopyAddress(a: Option<StripeAddressFields>): (r: Option<Address>)
    ensures r.Some? <==> a.Some?
    ensures a.Some? ==> r.value == Address(a.value.line1, a.value.line2, a.value.city, a.value.state, a.value.postalCode, a.value.country)
  {
    match a
    case None => None
    case Some(f) => Some(Address(f.line1, f.line2, f.city, f.state, f.postalCode, f.country))
  }

  /** The details a completed session contributes to its order. */
  function DetailsFromSession(s: RetrievedSession): (d: DetailsPatch)
    ensures d.amountTotal == AmountFromCents(s.amountTotalCents)
    ensures d.amountTax == AmountFromCents(s.amountTaxCents)
    ensures d.customerEmail == (if s.customerDetails.Some? then s.customerDetails.value.email else None)
    ensures d.customerName == (if s.customerDetails.Some? then s.customerDetails.value.name else None)
    ensures d.paymentIntentId == PaymentIntentIdOf(s.paymentIntent)
    ensures d.billingAddress == (if s.customerDetails.Some? then CopyAddress(s.customerDetails.value.address) else None)
    ensures d.shippingAddress == CopyAddress(s.shippingAddress)
  {
    var details := s.customerDetails;
    DetailsPatch(
      AmountFromCents(s.amountTotalCents),
      AmountFromCents(s.amountTaxCents),
      if details.Some? then details.value.email else None,
      if details.Some? then details.value.name else None,
      PaymentIntentIdOf(s.paymentIntent),
      if details.Some? then CopyAddress(details.value.address) else None,
      CopyAddress(s.shippingAddress))
  }

  // ---------------------------------------------------------------------------
  // The arguments of applySessionDetails

  /** The argument names the `applySessionDetails` validator declares; any other name is rejected. */
  const ValidatorArgNames: set<string> := {
    "orderId", "amountTotal", "amountTax", "customerEmail", "customerName",
    "paymentIntentId", "billingAddress", "shippingAddress"
  }

  /** The names of the detail fields actually sent (an undefined field is not sent). */
  function PresentDetailNames(d: DetailsPatch): (r: set<string>)
    ensures r <= ValidatorArgNames
    ensures d.amountTotal.Some? <==> "amountTotal" in r
  {
    (if d.amountTotal.Some? then {"amountTotal"} else {})
    + (if d.amountTax.Some? then {"amountTax"} else {})
    + (if d.customerEmail.Some? then {"customerEmail"} else {})
    + (if d.customerName.Some? then {"customerName"} else {})
    + (if d.paymentIntentId.Some? then {"paymentIntentId"} else {})
    + (if d.billingAddress.Some? then {"billingAddress"} else {})
    + (if d.shippingAddress.Some? then {"shippingAddress"} else {})
  }

  predicate ArgsAccepted(names: set<string>) {
    names <= ValidatorArgNames
  }

  /** The argument names the handler sends as written: the order id, `livemode`, and the present details. */
  function ArgNamesAsWritten(s: RetrievedSession): (r: set<string>)
    ensures "livemode" in r
  {
    {"orderId", "livemode"} + PresentDetailNames(DetailsFromSession(s))
  }

  /** The argument names sent once `livemode` is dropped. */
  function ArgNames(s: RetrievedSession): (r: set<string>)
    ensures "orderId" in r && "livemode" !in r
  {
    {"orderId"} + PresentDetailNames(DetailsFromSession(s))
  }

  /** As written, the details call is rejected for every session, so no details are ever stored. */
  lemma LivemodeArgumentAlwaysRejected(s: RetrievedSession)
    ensures !ArgsAccepted(ArgNamesAsWritten(s))
  {
    assert "livemode" !in ValidatorArgNames;
  }

  /** Without `livemode` the details call is accepted for every session. */
  lemma ArgumentsAccepted(s: RetrievedSession)
    ensures ArgsAccepted(ArgNames(s))
  {
  }

  /** The order after the completed-session branch as written: paid, and none of the session's details. */
  function CompletedOrderAsWritten(o: Order, s: RetrievedSession): (r: Order)
  {
    var paid := PatchStatus(o, Paid);
    if ArgsAccepted(ArgNamesAsWritten(s)) then ApplyDetails(paid, DetailsFromSession(s)) else paid
  }

  lemma CompletedAsWrittenLosesDetails(o: Order, s: RetrievedSession)
    requires o.amountTotal.None? && s.amountTotalCents == Some(800)
    ensures CompletedOrderAsWritten(o, s).status == Paid
    ensures CompletedOrderAsWritten(o, s).amountTotal.None?
    ensures CompletedOrder(o, s).amountTotal == Some(8.0)
  {
    LivemodeArgumentAlwaysRejected(s);
  }

  /** The order after the completed-session branch: paid, with the session's details. */
  function CompletedOrder(o: Order, s: RetrievedSession): (r: Order)
    ensures r.status == Paid && r.printId == o.printId && r.createdAt == o.createdAt
    ensures r.stripeSessionId == o.stripeSessionId
  {
    ArgumentsAccepted(s);
    ApplyDetails(PatchStatus(o, Paid), DetailsFromSession(s))
  }

  /** A redelivered completed event leaves the order as the first delivery did. */
  lemma CompletedRedeliveryIsIdempotent(o: Order, s: RetrievedSession)
    ensures CompletedOrder(CompletedOrder(o, s), s) == CompletedOrder(o, s)
  {
    var d := DetailsFromSession(s);
    DetailsCommuteWithStatus(ApplyDetails(PatchStatus(o, Paid), d), d, Paid);
    ApplyDetailsIdempotent(PatchStatus(o, Paid), d);
  }

  /** An expired event arriving after a completed one cancels the paid order; its details stay. */
  lemma ExpiredAfterCompletedCancels(o: Order, s: RetrievedSession)
    ensures PatchStatus(CompletedOrder(o, s), Canceled).status == Canceled
    ensures PatchStatus(CompletedOrder(o, s), Canceled).amountTotal == CompletedOrder(o, s).amountTotal
  {
  }

  // ---------------------------------------------------------------------------
  // Dispatch

  /** Where a metadata order id leads: nowhere (absent or empty), to an unusable id, or to an order. */
  datatype Target = NoTarget | BadId | ToOrder(id: OrderId)

  /** `if (orderId)`: absent and empty skip the update; otherwise the text must be an order id. */
  function TargetOf(metadataOrderId: Option<string>): (r: Target)
    ensures metadataOrderId.None? || metadataOrderId.value == "" ==> r == NoTarget
    ensures r.ToOrder? ==> metadataOrderId == Some(OrderIdText(r.id))
  {
    match metadataOrderId
    case None => NoTarget
    case Some(text) =>
      if text == "" then NoTarget
      else match ParseNat(text)
        case None => BadId
        case Some(n) =>
          DecimalTextOfParsed(text);
          ToOrder(OrderId(n))
  }

  /** The order id the checkout action wrote into the session metadata leads back to that order. */
  lemma CheckoutMetadataLeadsToOrder(id: OrderId)
    ensures TargetOf(Some(OrderIdText(id))) == ToOrder(id)
  {
  }

  datatype Outcome = Responded(status: int, body: string) | Thrown(message: string)

  const ValidationError: string := "ArgumentValidationError"
  const MissingDocument: string := "Document not found"

  /** `!sig || !secret`: a missing or empty header or secret. */
  predicate Configured(signature: Option<string>, secret: Option<string>) {
    signature.Some? && signature.value != "" && secret.Some? && secret.value != ""
  }

  /** The handler's response together with the orders table it leaves behind. */
  datatype Step = Step(outcome: Outcome, orders: map<OrderId, Order>)

  /** The order a verified event is about, when it names one. */
  function EventTarget(e: Result<Event, Option<string>>): (r: Option<OrderId>)
  {
    if e.Failure? || e.value.OtherEvent? then None
    else match TargetOf(e.value.session.metadataOrderId)
      case ToOrder(id) => Some(id)
      case _ => None
  }

  /**
   * What `stripeWebhook` answers and leaves in the orders table, when the
   * details call sends the argument names `argNames` gives for the retrieved
   * session. Each mutation commits on its own, so a later failure keeps what
   * an earlier mutation wrote. Only the order the event names can change, and
   * a 400 answer changes nothing.
   */
  function WebhookStep(
    orders: map<OrderId, Order>,
    raw: string,
    signature: Option<string>,
    secret: Option<string>,
    verify: (string, string, string) -> Result<Event, Option<string>>,
    retrieve: string -> Result<RetrievedSession, string>,
    argNames: RetrievedSession -> set<string>): (r: Step)
    ensures r.orders.Keys == orders.Keys
    ensures forall id :: id in orders && r.orders[id] != orders[id] ==>
      Configured(signature, secret) && EventTarget(verify(raw, signature.value, secret.value)) == Some(id)
    ensures r.outcome.Responded? ==> r.outcome.status == 200 || (r.outcome.status == 400 && r.orders == orders)
  {
    if !Configured(signature, secret) then Step(Responded(400, "Missing webhook configuration"), orders)
    else
      match verify(raw, signature.value, secret.value)
      case Failure(e) => Step(Responded(400, "Webhook Error: " + e.GetOr("invalid signature")), orders)
      case Success(event) =>
        match event
        case OtherEvent(_) => Step(Responded(200, "ok"), orders)
        case SessionExpired(session) =>
          (match TargetOf(session.metadataOrderId)
           case NoTarget => Step(Responded(200, "ok"), orders)
           case BadId => Step(Thrown(ValidationError), orders)
           case ToOrder(id) =>
             if id !in orders then Step(Thrown(MissingDocument), orders)
             else Step(Responded(200, "ok"), orders[id := PatchStatus(orders[id], Canceled)]))
        case SessionCompleted(session) =>
          match TargetOf(session.metadataOrderId)
          case NoTarget => Step(Responded(200, "ok"), orders)
          case BadId => Step(Thrown(ValidationError), orders)
          case ToOrder(id) =>
            if id !in orders then Step(Thrown(MissingDocument), orders)
            else
              var paid := orders[id := PatchStatus(orders[id], Paid)];
              match retrieve(session.id)
              case Failure(e) => Step(Thrown(e), paid)
              case Success(full) =>
                if !ArgsAccepted(argNames(full)) then Step(Thrown(ValidationError), paid)
                else Step(Responded(200, "ok"), paid[id := ApplyDetails(paid[id], DetailsFromSession(full))])
  }

  /**
   * The answers that change nothing: 400 for a missing header or secret and
   * for a failed signature check, and 200 "ok" for an event naming no order
   * and for any other event type.
   */
  lemma WebhookAnswers(
    orders: map<OrderId, Order>, raw: string, signature: Option<string>, secret: Option<string>,
    verify: (string, string, string) -> Result<Event, Option<string>>,
    retrieve: string -> Result<RetrievedSession, string>,
    argNames: RetrievedSession -> set<string>)
    ensures !Configured(signature, secret) ==>
      WebhookStep(orders, raw, signature, secret, verify, retrieve, argNames)
        == Step(Responded(400, "Missing webhook configuration"), orders)
    ensures Configured(signature, secret) && verify(raw, signature.value, secret.value).Failure? ==>
      WebhookStep(orders, raw, signature, secret, verify, retrieve, argNames)
        == Step(Responded(400, "Webhook Error: " + verify(raw, signature.value, secret.value).error.GetOr("invalid signature")), orders)
    ensures Configured(signature, secret) && verify(raw, signature.value, secret.value).Success? ==>
      var event := verify(raw, signature.value, secret.value).value;
      (event.OtherEvent? || TargetOf(event.session.metadataOrderId) == NoTarget) ==>
        WebhookStep(orders, raw, signature, secret, verify, retrieve, argNames) == Step(Responded(200, "ok"), orders)
  {
  }

  /**
   * As written, a completed session for a stored order whose details Stripe
   * returns ends with the details call rejected: the order stays paid, the
   * handler throws, and Stripe is answered with an error and redelivers.
   */
  lemma CompletedAsWrittenThrowsAfterPaying(
    orders: map<OrderId, Order>, raw: string, signature: Option<string>, secret: Option<string>,
    verify: (string, string, string) -> Result<Event, Option<string>>,
    retrieve: string -> Result<RetrievedSession, string>,
    session: EventSession, id: OrderId)
    requires Configured(signature, secret)
    requires verify(raw, signature.value, secret.value) == Success(SessionCompleted(session))
    requires TargetOf(session.metadataOrderId) == ToOrder(id) && id in orders
    requires retrieve(session.id).Success?
    ensures WebhookStep(orders, raw, signature, secret, verify, retrieve, ArgNamesAsWritten)
      == Step(Thrown(ValidationError), orders[id := PatchStatus(orders[id], Paid)])
  {
    LivemodeArgumentAlwaysRejected(retrieve(session.id).value);
  }

  /** Without `livemode`, the same delivery is acknowledged and the order is paid and detailed. */
  lemma CompletedStoresDetails(
    orders: map<OrderId, Order>, raw: string, signature: Option<string>, secret: Option<string>,
    verify: (string, string, string) -> Result<Event, Option<string>>,
    retrieve: string -> Result<RetrievedSession, string>,
    session: EventSession, id: OrderId)
    requires Configured(signature, secret)
    requires verify(raw, signature.value, secret.value) == Success(SessionCompleted(session))
    requires TargetOf(session.metadataOrderId) == ToOrder(id) && id in orders
    requires retrieve(session.id).Success?
    ensures WebhookStep(orders, raw, signature, secret, verify, retrieve, ArgNames)
      == Step(Responded(200, "ok"), orders[id := CompletedOrder(orders[id], retrieve(session.id).value)])
  {
    ArgumentsAccepted(retrieve(session.id).value);
    var paid := orders[id := PatchStatus(orders[id], Paid)];
    assert paid[id := ApplyDetails(paid[id], DetailsFromSession(retrieve(session.id).value))]
      == orders[id := CompletedOrder(orders[id], retrieve(session.id).value)];
  }

  /** An expired session for a stored order cancels it, whatever its status, and is acknowledged. */
  lemma ExpiredCancels(
    orders: map<OrderId, Order>, raw: string, signature: Option<string>, secret: Option<string>,
    verify: (string, string, string) -> Result<Event, Option<string>>,
    retrieve: string -> Result<RetrievedSession, string>,
    argNames: RetrievedSession -> set<string>,
    session: EventSession, id: OrderId)
    requires Configured(signature, secret)
    requires verify(raw, signature.value, secret.value) == Success(SessionExpired(session))
    requires TargetOf(session.metadataOrderId) == ToOrder(id) && id in orders
    ensures WebhookStep(orders, raw, signature, secret, verify, retrieve, argNames)
      == Step(Responded(200, "ok"), orders[id := PatchStatus(orders[id], Canceled)])
  {
  }

  /**
   * The handler, sending the details call the argument names `argNames`
   * gives; `StripeWebhook` and `StripeWebhookCorrected` fix them.
   */
  method HandleWebhook(
    db: Db,
    raw: string,
    signature: Option<string>,
    secret: Option<string>,
    verify: (string, string, string) -> Result<Event, Option<string>>,
    retrieve: string -> Result<RetrievedSession, string>,
    argNames: RetrievedSession -> set<string>)
    returns (outcome: Outcome)
    requires db.Valid()
    modifies db
    ensures db.Valid()
    ensures db.prints == old(db.prints)
    ensures Step(outcome, db.orders) == WebhookStep(old(db.orders), raw, signature, secret, verify, retrieve, argNames)
  {
    if !Configured(signature, secret) {
      return Responded(400, "Missing webhook configuration");
    }
    var event := verify(raw, signature.value, secret.value);
    if event.Failure? {
      return Responded(400, "Webhook Error: " + event.error.GetOr("invalid signature"));
    }
    match event.value {
      case SessionCompleted(session) =>
        var target := TargetOf(session.metadataOrderId);
        if target.BadId? {
          return Thrown(ValidationError);
        }
        if target.ToOrder? {
          var paid := db.MarkOrderPaid(target.id);
          if !paid {
            return Thrown(MissingDocument);
          }
          var full := retrieve(session.id);
          if full.Failure? {
            return Thrown(full.error);
          }
          if !ArgsAccepted(argNames(full.value)) {
            return Thrown(ValidationError);
          }
          var _ := db.ApplySessionDetails(target.id, DetailsFromSession(full.value));
        }
      case SessionExpired(session) =>
        var target := TargetOf(session.metadataOrderId);
        if target.BadId? {
          return Thrown(ValidationError);
        }
        if target.ToOrder? {
          var canceled := db.MarkOrderCanceled(target.id);
          if !canceled {
            return Thrown(MissingDocument);
          }
        }
      case OtherEvent(_) =>
    }
    return Responded(200, "ok");
  }

  /** `stripeWebhook` as written: the details call carries `livemode`. */
  method StripeWebhook(
    db: Db,
    raw: string,
    signature: Option<string>,
    secret: Option<string>,
    verify: (string, string, string) -> Result<Event, Option<string>>,
    retrieve: string -> Result<RetrievedSession, string>)
    returns (outcome: Outcome)
    requires db.Valid()
    modifies db
    ensures db.Valid()
    ensures db.prints == old(db.prints)
    ensures Step(outcome, db.orders) == WebhookStep(old(db.orders), raw, signature, secret, verify, retrieve, ArgNamesAsWritten)
  {
    outcome := HandleWebhook(db, raw, signature, secret, verify, retrieve, ArgNamesAsWritten);
  }

  /** `stripeWebhook` with `livemode` dropped from the details call. */
  method StripeWebhookCorrected(
    db: Db,
    raw: string,
    signature: Option<string>,
    secret: Option<string>,
    verify: (string, string, string) -> Result<Event, Option<string>>,
    retrieve: string -> Result<RetrievedSession, string>)
    returns (outcome: Outcome)
    requires db.Valid()
    modifies db
    ensures db.Valid()
    ensures db.prints == old(db.prints)
    ensures Step(outcome, db.orders) == WebhookStep(old(db.orders), raw, signature, secret, verify, retrieve, ArgNames)
  {
    outcome := HandleWebhook(db, raw, signature, secret, verify, retrieve, ArgNames);
  }
}
