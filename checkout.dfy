/**
 * The checkout action (convex/checkout.ts): look up the order and its print,
 * build the Stripe line items, create a customer and a checkout session, and
 * attach the session id to the order.
 *
 * Stripe's `customers.create` and `checkout.sessions.create` are function
 * parameters returning a `Result`; a `Failure` is the call throwing. The
 * requests the action sends are recorded in `calls`, in order.
 */
module Checkout {
  import opened Wrappers
  import opened Text
  import opened Geometry
  import opened Materials
  import opened Pricing
  import opened Records

  datatype CheckoutArgs = CheckoutArgs(
    orderId: OrderId,
    fullName: string,
    email: string,
    address1: string,
    city: string,
    state: string,
    zip: string,
    notes: Option<string>)

  /** The two environment variables the site URL is read from. */
  datatype SiteEnv = SiteEnv(siteUrl: Option<string>, convexSiteUrl: Option<string>)

  /** `String(orderId)`: the id as it appears in URLs and metadata. */
  function OrderIdText(id: OrderId): (r: string)
    ensures ParseNat(r) == Some(id.n)
  {
    ParseDecimalText(id.n);
    DecimalText(id.n)
  }

  /** `a || b` on an environment variable: unset and empty both fall through. */
  function OrElse(a: Option<string>, b: string): (r: string)
    ensures a.Some? && a.value != "" ==> r == a.value
    ensures a.None? || a.value == "" ==> r == b
  {
    if a.Some? && a.value != "" then a.value else b
  }

  const LocalSiteUrl: string := "http://localhost:3000"

  /** `SITE_URL || CONVEX_SITE_URL || "http://localhost:3000"`: the first non-empty one. */
  function SiteUrl(env: SiteEnv): (r: string)
    ensures r != ""
    ensures r == LocalSiteUrl || (env.siteUrl.Some? && r == env.siteUrl.value) || (env.convexSiteUrl.Some? && r == env.convexSiteUrl.value)
    ensures env.siteUrl.Some? && env.siteUrl.value != "" ==> r == env.siteUrl.value
    ensures (env.siteUrl.None? || env.siteUrl.value == "") && env.convexSiteUrl.Some? && env.convexSiteUrl.value != "" ==>
      r == env.convexSiteUrl.value
    ensures (env.siteUrl.None? || env.siteUrl.value == "") && (env.convexSiteUrl.None? || env.convexSiteUrl.value == "") ==>
      r == LocalSiteUrl
  {
    OrElse(env.siteUrl, OrElse(env.convexSiteUrl, LocalSiteUrl))
  }

  /** `Math.round`: the nearest integer, halves rounded up. */
  function JsRound(x: real): (r: int)
    ensures x - 0.5 < r as real <= x + 0.5
  {
    (x + 0.5).Floor
  }

  /** `Math.round` leaves an integer where it is. */
  lemma JsRoundOfInt(k: int)
    ensures JsRound(k as real) == k
  {
  }

  /** A whole-cent price becomes its exact number of cents. */
  lemma UnitAmountOfWholeCents(price: real)
    ensures WholeCents(price) ==> JsRound(price * 100.0) as real == 100.0 * price
  {
    if WholeCents(price) {
      JsRoundOfInt((100.0 * price).Floor);
      assert price * 100.0 == 100.0 * price;
    }
  }

  datatype LineItem = LineItem(name: string, description: Option<string>, unitAmountCents: int, quantity: real)

  function Description(p: PrintArgs): string {
    ToUpper(p.material) + " • " + p.quality + " • " + p.color
  }

  /** The line for the printed part: the per-item price in cents, for at least one item. */
  function PartLine(p: PrintArgs): (l: LineItem)
    ensures l.name == p.fileName
    ensures l.quantity >= 1.0 && (p.qty >= 1.0 ==> l.quantity == p.qty)
    ensures WholeCents(p.priceEach) ==> l.unitAmountCents as real == 100.0 * p.priceEach
  {
    UnitAmountOfWholeCents(p.priceEach);
    LineItem(p.fileName, Some(Description(p)), JsRound(p.priceEach * 100.0), Max(1.0, p.qty))
  }

  /** The base-fee line: one unit of the base fee in cents. */
  function BaseFeeLine(p: PrintArgs): (l: LineItem)
    ensures l.name == "Base fee" && l.description.None? && l.quantity == 1.0
    ensures WholeCents(p.baseFee) ==> l.unitAmountCents as real == 100.0 * p.baseFee
  {
    UnitAmountOfWholeCents(p.baseFee);
    LineItem("Base fee", None, JsRound(p.baseFee * 100.0), 1.0)
  }

  /** `line_items`: the part line, followed by the base-fee line exactly when the base fee is positive. */
  function LineItems(p: PrintArgs): (r: seq<LineItem>)
    ensures 1 <= |r| <= 2
    ensures r[0] == PartLine(p)
    ensures |r| == 2 <==> p.baseFee > 0.0
    ensures |r| == 2 ==> r[1] == BaseFeeLine(p)
  {
    var items := [PartLine(p)];
    if p.baseFee > 0.0 then items + [BaseFeeLine(p)] else items
  }

  /** What Stripe charges for the items before tax, in cents. */
  function ChargedCents(items: seq<LineItem>): real {
    if |items| == 0 then 0.0
    else ChargedCents(items[..|items| - 1]) + Times(items[|items| - 1].unitAmountCents as real, items[|items| - 1].quantity)
  }

  /**
   * For a print saved from an estimate (a whole-cent price, a whole quantity of
   * at least one, the 3.00 base fee), Stripe is asked for exactly the
   * estimate's total.
   */
  lemma ChargeMatchesEstimateTotal(p: PrintArgs, q: int)
    requires WholeCents(p.priceEach) && q >= 1 && p.qty == q as real && p.baseFee == BaseFeeUsd
    ensures ChargedCents(LineItems(p)) == 100.0 * OrderTotal(p.priceEach, p.qty)
  {
    var items := LineItems(p);
    assert JsRound(p.baseFee * 100.0) == 300;
    var part := PartLine(p);
    var unit := part.unitAmountCents as real;
    assert part.quantity == q as real;
    assert items == [part, BaseFeeLine(p)];
    assert items[..1] == [part] && [part][..0] == [];
    assert ChargedCents([part]) == Times(unit, q as real);
    assert ChargedCents(items) == Times(unit, q as real) + Times(300.0, 1.0);
    assert Times(unit, q as real) == 100.0 * (p.priceEach * q as real) by {
      assert unit == 100.0 * p.priceEach;
    }
    OrderTotalOfWholeQuantity(p.priceEach, q);
  }

  datatype StripeAddress = StripeAddress(line1: string, city: string, state: string, postalCode: string, country: string)

  datatype CustomerRequest = CustomerRequest(
    name: string,
    email: string,
    address: StripeAddress,
    shippingName: string,
    shippingAddress: StripeAddress,
    metadataOrderId: string)

  datatype SessionRequest = SessionRequest(
    lineItems: seq<LineItem>,
    customerId: string,
    successUrl: string,
    cancelUrl: string,
    metadataOrderId: string,
    metadataNotes: string)

  datatype StripeSession = StripeSession(id: string, url: Option<string>)

  datatype StripeCall = CreateCustomer(customer: CustomerRequest) | CreateSession(session: SessionRequest)

  /** The customer prefilled from the form: billing and shipping are the same US address. */
  function CustomerRequestFor(args: CheckoutArgs): (r: CustomerRequest)
    ensures r.address.country == "US" && r.shippingAddress.country == "US"
    ensures r.address == r.shippingAddress && r.name == r.shippingName == args.fullName
    ensures ParseNat(r.metadataOrderId) == Some(args.orderId.n)
    ensures r.email == args.email
    ensures r.address == StripeAddress(args.address1, args.city, args.state, args.zip, "US")
  {
    var address := StripeAddress(args.address1, args.city, args.state, args.zip, "US");
    CustomerRequest(args.fullName, args.email, address, args.fullName, address, OrderIdText(args.orderId))
  }

  /** The checkout session: the line items, the customer, the return URLs and the metadata. */
  function SessionRequestFor(args: CheckoutArgs, p: PrintArgs, customerId: string, siteUrl: string): (r: SessionRequest)
    ensures r.lineItems == LineItems(p) && r.customerId == customerId
    ensures r.successUrl == siteUrl + "/order-success?orderId=" + OrderIdText(args.orderId)
    ensures r.cancelUrl == siteUrl + "/checkout?orderId=" + OrderIdText(args.orderId)
    ensures ParseNat(r.metadataOrderId) == Some(args.orderId.n)
    ensures r.metadataNotes == args.notes.GetOr("")
  {
    SessionRequest(
      LineItems(p),
      customerId,
      siteUrl + "/order-success?orderId=" + OrderIdText(args.orderId),
      siteUrl + "/checkout?orderId=" + OrderIdText(args.orderId),
      OrderIdText(args.orderId),
      args.notes.GetOr(""))
  }

  /** The public functions convex/prints.ts exports; `api.prints.<name>` resolves only to these. */
  const PrintsExports: set<string> := {"createPrintAndOrder"}

  /** `ctx.runQuery(api.prints.<name>, …)`: a name the module does not export makes the call throw. */
  function PrintsQueryError(name: string): (r: Option<string>)
    ensures r.None? <==> name in PrintsExports
  {
    if name in PrintsExports then None else Some("Could not find public function for 'prints:" + name + "'")
  }

  /** The query the checkout action and page call for the print is not among the module's exports. */
  lemma GetPrintByIdIsMissing()
    ensures "getPrintById" !in PrintsExports
    ensures PrintsQueryError("getPrintById").Some?
  {
  }

  /**
   * `createCheckoutSession` as written: the print is looked up through
   * `api.prints.getPrintById`, which convex/prints.ts does not export, so the
   * action throws for every stored order, before any Stripe call and without
   * writing anything; the steps of `CreateCheckoutSession` after the lookup
   * are never reached.
   */
  method CreateCheckoutSessionAsWritten(
    db: Db,
    args: CheckoutArgs,
    env: SiteEnv,
    createCustomer: CustomerRequest -> Result<string, string>,
    createSession: SessionRequest -> Result<StripeSession, string>)
    returns (outcome: Result<Option<string>, string>, calls: seq<StripeCall>)
    requires db.Valid()
    ensures calls == []
    ensures args.orderId !in db.orders ==> outcome == Failure("Order not found")
    ensures args.orderId in db.orders ==> outcome == Failure(PrintsQueryError("getPrintById").value)
  {
    var order := db.GetOrderById(args.orderId);
    if order.None? {
      return Failure("Order not found"), [];
    }
    var missing := PrintsQueryError("getPrintById");
    return Failure(missing.value), [];
  }

  /**
   * `createCheckoutSession`: on success the order's session id is the new
   * session's, whatever the order's status, and the session URL is returned.
   * A missing order or print fails before any Stripe call; a failed Stripe call
   * leaves the tables unchanged. The print is read from the prints table
   * directly, the lookup `getPrintById` evidently stands for.
   */
  method CreateCheckoutSession(
    db: Db,
    args: CheckoutArgs,
    env: SiteEnv,
    createCustomer: CustomerRequest -> Result<string, string>,
    createSession: SessionRequest -> Result<StripeSession, string>)
    returns (outcome: Result<Option<string>, string>, calls: seq<StripeCall>)
    requires db.Valid()
    modifies db
    ensures db.Valid()
    ensures db.prints == old(db.prints)
    ensures args.orderId !in old(db.orders) ==> outcome == Failure("Order not found") && calls == []
    ensures args.orderId in old(db.orders) ==>
      var p := old(db.prints)[old(db.orders)[args.orderId].printId].args;
      && |calls| >= 1
      && calls[0] == CreateCustomer(CustomerRequestFor(args))
      && (createCustomer(CustomerRequestFor(args)).Failure? ==>
            calls == [calls[0]] && outcome == Failure(createCustomer(CustomerRequestFor(args)).error))
      && (createCustomer(CustomerRequestFor(args)).Success? ==>
            var request := SessionRequestFor(args, p, createCustomer(CustomerRequestFor(args)).value, SiteUrl(env));
            && calls == [calls[0], CreateSession(request)]
            && (createSession(request).Failure? ==> outcome == Failure(createSession(request).error))
            && (createSession(request).Success? ==>
                  && outcome == Success(createSession(request).value.url)
                  && db.orders == old(db.orders)[args.orderId := old(db.orders)[args.orderId].(stripeSessionId := Some(createSession(request).value.id))]))
    ensures outcome.Failure? ==> db.orders == old(db.orders)
  {
    calls := [];
    var order := db.GetOrderById(args.orderId);
    if order.None? {
      return Failure("Order not found"), calls;
    }
    var printDoc := db.GetPrintById(order.value.printId);
    if printDoc.None? {
      return Failure("Print not found"), calls;
    }
    var p := printDoc.value.args;
    var siteUrl := SiteUrl(env);
    var lineItems := LineItems(p);

    var customerRequest := CustomerRequestFor(args);
    calls := calls + [CreateCustomer(customerRequest)];
    var customer := createCustomer(customerRequest);
    if customer.Failure? {
      return Failure(customer.error), calls;
    }

    var sessionRequest := SessionRequestFor(args, p, customer.value, siteUrl);
    calls := calls + [CreateSession(sessionRequest)];
    var session := createSession(sessionRequest);
    if session.Failure? {
      return Failure(session.error), calls;
    }

    var _ := db.SetStripeSessionId(args.orderId, session.value.id);
    outcome := Success(session.value.url);
  }
}
