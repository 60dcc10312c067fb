/** The entitlement side: the product table of the checkout page, the claims
    the success page puts in its token, and the Stripe webhook that turns a
    completed checkout into plan and quota changes. Stripe calls and the
    signature check appear as their outcomes. */
module Billing {
  import opened Maybe
  import opened Models

  const Export1 := "EXPORT_1"
  const CreatorMonth := "CREATOR_MONTH"
  const CreatorPeriod := 30 * Day

  datatype Product = Product(name: string, price: int)

  /** The catalogue, prices in cents. */
  const Catalogue: map<string, Product> :=
    map[Export1 := Product("Single Export", 400),
        CreatorMonth := Product("Creator Plan (30 days)", 2500)]

  /** `create_checkout_session` up to the Stripe call: the product to charge
      for, or the error reply for an unknown id. */
  function CheckoutProduct(productId: string): (r: Result<Product>)
    ensures r.Err? <==> productId != Export1 && productId != CreatorMonth
    ensures r.Err? ==> r.error == "Invalid product ID"
    ensures productId == Export1 ==> r == Ok(Product("Single Export", 400))
    ensures productId == CreatorMonth ==> r == Ok(Product("Creator Plan (30 days)", 2500))
  {
    if productId in Catalogue then Ok(Catalogue[productId]) else Err("Invalid product ID")
  }

  /** The answer of the checkout route: a redirect to the Stripe session
      opened for the product, or a JSON error body with its HTTP status. */
  datatype CheckoutAnswer = RedirectToStripe(product: Product) | JsonError(status: int, error: string)

  /** The route as written: an unknown product's error dictionary is an
      ordinary response, so it goes out with status 200. */
  function CheckoutAsWritten(productId: string): (r: CheckoutAnswer)
    ensures r.JsonError? <==> CheckoutProduct(productId).Err?
  {
    match CheckoutProduct(productId)
    case Ok(product) => RedirectToStripe(product)
    case Err(e) => JsonError(200, e)
  }

  /** The repository's test of the route expects 400 or 404 for an unknown
      product; the route as written answers 200. */
  lemma UnknownProductAnsweredOk()
    ensures CheckoutAsWritten("INVALID") == JsonError(200, "Invalid product ID")
    ensures CheckoutAsWritten("INVALID").status !in {400, 404}
  {
  }

  /** The route refusing an unknown product as a bad request. */
  function Checkout(productId: string): (r: CheckoutAnswer)
    ensures r.JsonError? <==> productId != Export1 && productId != CreatorMonth
    ensures r.JsonError? ==> r.status == 400 && r.error == "Invalid product ID"
    ensures r.RedirectToStripe? ==> r.product == Catalogue[productId] && r.product.price > 0
  {
    match CheckoutProduct(productId)
    case Ok(product) => RedirectToStripe(product)
    case Err(e) => JsonError(400, e)
  }

  /** The two agree on every known product. */
  lemma CheckoutAgreesOnKnownProducts(productId: string)
    requires productId in Catalogue
    ensures Checkout(productId) == CheckoutAsWritten(productId)
  {
  }

  // --------------------------------------------------------- success page

  /** The claims `checkout_success` signs into the access token. */
  datatype TokenClaims = TokenClaims(email: string, plan: Plan, quota: int)

  function CheckoutClaims(email: string, productId: Option<string>): (c: TokenClaims)
    ensures c.email == email
    ensures c.plan == Creator <==> productId == Some(CreatorMonth)
    ensures c.quota == 1 <==> productId == Some(Export1)
    ensures c.quota == 0 <==> productId != Some(Export1)
  {
    TokenClaims(email,
                if productId == Some(CreatorMonth) then Creator else Single,
                if productId == Some(Export1) then 1 else 0)
  }

  /** The Stripe session lookup: its customer e-mail and metadata product id, or the failure. */
  datatype SessionLookup = Retrieved(email: string, productId: Option<string>) | LookupFailed(error: string)

  datatype SuccessPage = TokenPage(email: string, productId: Option<string>, claims: TokenClaims)
                       | ErrorPage(error: string)

  /** `checkout_success`. The plan row it adds for a new customer is never
      committed, so the table is unchanged whatever happens. */
  function CheckoutSuccess(plans: PlanStore, lookup: SessionLookup): (r: (PlanStore, SuccessPage))
    ensures r.0 == plans
    ensures r.1.TokenPage? <==> lookup.Retrieved?
    ensures r.1.TokenPage? ==> r.1.claims == CheckoutClaims(lookup.email, lookup.productId)
                               && r.1.email == lookup.email
    ensures r.1.ErrorPage? ==> r.1.error == lookup.error
  {
    match lookup
    case LookupFailed(error) => (plans, ErrorPage(error))
    case Retrieved(email, productId) => (plans, TokenPage(email, productId, CheckoutClaims(email, productId)))
  }

  /** What a `GET /checkout/<segment>` reaches: the checkout route's answer,
      the success page, or the cancel page. */
  datatype CheckoutPage = CheckoutRoute(answer: CheckoutAnswer) | SuccessRoute(page: SuccessPage) | CancelRoute

  const SuccessSegment := "success"
  const CancelSegment := "cancel"

  /** The router as declared: routes are tried in declaration order and the
      parameterised `/checkout/{product_id}` is declared before the literal
      `/checkout/success` and `/checkout/cancel`, so it takes every segment. */
  function RouteCheckoutAsWritten(segment: string, plans: PlanStore, lookup: SessionLookup): (r: CheckoutPage)
    ensures r.CheckoutRoute?
    ensures r.answer.JsonError? <==> segment !in Catalogue
  {
    CheckoutRoute(CheckoutAsWritten(segment))
  }

  /** The buyer Stripe sends back to the success page gets the checkout
      route's error body instead, whatever the session holds, and the cancel
      page is unreachable too. */
  lemma SuccessPageShadowed(plans: PlanStore, lookup: SessionLookup)
    ensures RouteCheckoutAsWritten(SuccessSegment, plans, lookup) == CheckoutRoute(JsonError(200, "Invalid product ID"))
    ensures RouteCheckoutAsWritten(CancelSegment, plans, lookup) == CheckoutRoute(JsonError(200, "Invalid product ID"))
  {
  }

  /** The router with the literal routes tried first, over the corrected
      checkout route. */
  function RouteCheckout(segment: string, plans: PlanStore, lookup: SessionLookup): (r: CheckoutPage)
    ensures r.SuccessRoute? <==> segment == SuccessSegment
    ensures r.CancelRoute? <==> segment == CancelSegment
    ensures r.SuccessRoute? ==> r.page == CheckoutSuccess(plans, lookup).1
    ensures r.CheckoutRoute? ==> r.answer == Checkout(segment)
  {
    if segment == SuccessSegment then SuccessRoute(CheckoutSuccess(plans, lookup).1)
    else if segment == CancelSegment then CancelRoute
    else CheckoutRoute(Checkout(segment))
  }

  /** With the literal routes first, every product id is still routed to the
      checkout, and a buyer returning with a retrieved session sees the token
      page with the claims of their purchase. */
  lemma ReturningBuyerSeesToken(plans: PlanStore, email: string, productId: Option<string>, segment: string)
    ensures RouteCheckout(SuccessSegment, plans, Retrieved(email, productId))
              == SuccessRoute(TokenPage(email, productId, CheckoutClaims(email, productId)))
    ensures segment in Catalogue ==>
      RouteCheckout(segment, plans, Retrieved(email, productId)) == CheckoutRoute(CheckoutAsWritten(segment))
  {
    if segment in Catalogue {
      CheckoutAgreesOnKnownProducts(segment);
    }
  }

  // --------------------------------------------------------------- webhook

  const NoneAddError := "unsupported operand type(s) for +=: 'NoneType' and 'int'"

  /** Python's `quota += 1` on a column value that is unset until the row is inserted. */
  function Credit(quota: Option<int>): (r: Result<int>)
    ensures r.Ok? <==> quota.Some?
    ensures r.Ok? ==> r.value == quota.value + 1
  {
    match quota
    case None => Err(NoneAddError)
    case Some(q) => Ok(q + 1)
  }

  /** `process_successful_payment` as written: a row created for a new
      customer has no quota yet, because the column default is applied only
      when the row is inserted, so crediting it raises. */
  function ApplyPaymentAsWritten(plans: PlanStore, email: string, productId: Option<string>, now: int)
    : (r: Result<PlanStore>)
  {
    var known := email in plans;
    var ent := if known then plans[email] else NewPlan(email, now);
    var quota := if known then Some(ent.quota) else None;
    if productId == Some(Export1) then
      match Credit(quota)
      case Err(e) => Err(e)
      case Ok(q) => Ok(plans[email := ent.(quota := q, updatedAt := now)])
    else if productId == Some(CreatorMonth) then
      Ok(plans[email := ent.(plan := Creator, expiresAt := Some(now + CreatorPeriod), updatedAt := now)])
    else if known then Ok(plans)
    else Ok(plans[email := ent])
  }

  /** The first single-export purchase of a new customer raises instead of
      granting the credit, and the webhook then fails with nothing stored. */
  lemma NewCustomerExportCrashes(plans: PlanStore, email: string, now: int)
    requires email !in plans
    ensures ApplyPaymentAsWritten(plans, email, Some(Export1), now) == Err(NoneAddError)
  {
  }

  /** The payment update with the row's default quota of 0 in force for a new
      customer: every purchase is applied. */
  function ApplyPayment(plans: PlanStore, email: string, productId: Option<string>, now: int): (r: PlanStore)
    ensures email in r && r == plans[email := r[email]]
    ensures var before := if email in plans then plans[email] else NewPlan(email, now);
      && r[email].email == before.email && r[email].createdAt == before.createdAt
      && (productId == Some(Export1) ==>
            r[email].quota == before.quota + 1 && r[email].plan == before.plan
            && r[email].expiresAt == before.expiresAt)
      && (productId == Some(CreatorMonth) ==>
            r[email].plan == Creator && r[email].expiresAt == Some(now + CreatorPeriod)
            && r[email].quota == before.quota)
      && (productId != Some(Export1) && productId != Some(CreatorMonth) ==>
            r[email] == before && (email in plans ==> r == plans))
  {
    var ent := if email in plans then plans[email] else NewPlan(email, now);
    if productId == Some(Export1) then plans[email := ent.(quota := ent.quota + 1, updatedAt := now)]
    else if productId == Some(CreatorMonth) then
      plans[email := ent.(plan := Creator, expiresAt := Some(now + CreatorPeriod), updatedAt := now)]
    else plans[email := ent]
  }

  /** Outside the crashing case, the code as written and the corrected update agree. */
  lemma AsWrittenAgreesElsewhere(plans: PlanStore, email: string, productId: Option<string>, now: int)
    requires email in plans || productId != Some(Export1)
    ensures ApplyPaymentAsWritten(plans, email, productId, now) == Ok(ApplyPayment(plans, email, productId, now))
  {
    if productId != Some(Export1) && productId != Some(CreatorMonth) && email in plans {
      assert plans[email := plans[email]] == plans;
    }
  }

  /** The token claims of the success page describe the plan row the webhook
      creates for a first-time customer. */
  lemma ClaimsMatchFirstPayment(plans: PlanStore, email: string, productId: Option<string>, now: int)
    requires email !in plans
    ensures var u := ApplyPayment(plans, email, productId, now)[email];
            var c := CheckoutClaims(email, productId);
            u.plan == c.plan && u.quota == c.quota
  {
  }

  predicate QuotasNonNegative(plans: PlanStore) {
    forall e :: e in plans ==> plans[e].quota >= 0
  }

  /** No purchase drives a quota below zero. */
  lemma PaymentKeepsQuotasNonNegative(plans: PlanStore, email: string, productId: Option<string>, now: int)
    requires QuotasNonNegative(plans)
    ensures QuotasNonNegative(ApplyPayment(plans, email, productId, now))
  {
    var r := ApplyPayment(plans, email, productId, now);
    forall e | e in r
      ensures r[e].quota >= 0
    {
      if e != email {
        assert r[e] == plans[e];
      }
    }
  }

  /** What `construct_event` yields: a payload it cannot parse, a bad
      signature, or an event with its type and the checkout session fields. */
  datatype WebhookInput = BadPayload | BadSignature | Event(kind: string, email: string, productId: Option<string>)

  /** The webhook's answer: an error body, the success body, or an exception
      the handler does not catch (the framework answers it with status 500). */
  datatype WebhookReply = WebhookError(message: string) | WebhookSuccess | WebhookRaised(error: string)

  const PaymentEvent := "checkout.session.completed"

  /** `stripe_webhook` as written: an exception from the payment update is
      not caught, so the request fails and nothing is committed. */
  function StripeWebhookAsWritten(plans: PlanStore, input: WebhookInput, now: int): (r: (PlanStore, WebhookReply))
    ensures r.1.WebhookRaised? <==>
      input.Event? && input.kind == PaymentEvent && ApplyPaymentAsWritten(plans, input.email, input.productId, now).Err?
    ensures r.1.WebhookRaised? ==> r.0 == plans
    ensures !r.1.WebhookRaised? ==> r == StripeWebhook(plans, input, now)
  {
    match input
    case BadPayload => (plans, WebhookError("Invalid payload"))
    case BadSignature => (plans, WebhookError("Invalid signature"))
    case Event(kind, email, productId) =>
      if kind != PaymentEvent then (plans, WebhookSuccess)
      else match ApplyPaymentAsWritten(plans, email, productId, now)
        case Err(e) => (plans, WebhookRaised(e))
        case Ok(updated) =>
          AsWrittenAgreesElsewhere(plans, email, productId, now);
          (updated, WebhookSuccess)
  }

  /** A new customer's single-export payment, as written, fails the webhook
      and leaves the plan table as it was. */
  lemma NewBuyerWebhookFails(plans: PlanStore, email: string, now: int)
    requires email !in plans
    ensures StripeWebhookAsWritten(plans, Event(PaymentEvent, email, Some(Export1)), now) == (plans, WebhookRaised(NoneAddError))
  {
    NewCustomerExportCrashes(plans, email, now);
  }

  /** `stripe_webhook` with the corrected payment update. */
  function StripeWebhook(plans: PlanStore, input: WebhookInput, now: int): (r: (PlanStore, WebhookReply))
    ensures r.1 == WebhookSuccess <==> input.Event?
    ensures r.0 != plans ==> input.Event? && input.kind == PaymentEvent
    ensures input.Event? && input.kind == PaymentEvent ==>
              r.0 == ApplyPayment(plans, input.email, input.productId, now)
    ensures input == BadPayload ==> r.1 == WebhookError("Invalid payload")
    ensures input == BadSignature ==> r.1 == WebhookError("Invalid signature")
  {
    match input
    case BadPayload => (plans, WebhookError("Invalid payload"))
    case BadSignature => (plans, WebhookError("Invalid signature"))
    case Event(kind, email, productId) =>
      if kind == PaymentEvent then (ApplyPayment(plans, email, productId, now), WebhookSuccess)
      else (plans, WebhookSuccess)
  }
}
