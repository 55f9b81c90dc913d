/** The checkout-session handler: validates the request (method, payment
    provider, caller, plan, price id), ensures the caller's subscription row,
    backfills the provider customer id, resolves a voucher code and asks the
    provider for a checkout session with success and cancel URLs. */
module CheckoutSession {
  import opened Wrappers
  import opened Http
  import opened Postgrest
  import opened JsArrays
  import opened SubscriptionServer

  /** The signed-in caller. */
  datatype CheckoutUser = CheckoutUser(id: string, email: Option<string>)

  /** The request body; `None` is an absent field. */
  datatype CheckoutBody = CheckoutBody(plan: Option<string>, couponCode: Option<string>)

  /** A row of `coupons`. */
  datatype Coupon = Coupon(code: string, active: bool, stripeCouponId: Option<string>)

  /** The customer the handler asks the provider to create. */
  datatype CustomerRequest = CustomerRequest(email: Option<string>, userId: string)

  /** The checkout session the handler asks the provider to create: a
      subscription-mode session for one unit of the price, with the caller
      and plan as the subscription's metadata and promotion codes allowed. */
  datatype SessionRequest = SessionRequest(
    customer: string,
    priceId: string,
    quantity: nat,
    successUrl: string,
    cancelUrl: string,
    metadataUserId: string,
    metadataPlan: string,
    coupon: Option<string>,
    allowPromotionCodes: bool)

  /** What creating the session gives: a session (with or without a URL),
      or a thrown error (with or without a message). */
  datatype SessionResult = Created(url: Option<string>) | Threw(message: Option<string>)

  const DefaultAppUrl := "http://localhost:3000"

  /** planPriceIdMap[plan]: only premium has a price id, taken from the
      environment; every other plan name has none. */
  function PriceIdFor(plan: string, premiumPriceId: Option<string>): (r: Option<string>)
    ensures r.Some? ==> plan == "premium" && r == premiumPriceId
    ensures plan == "premium" ==> r == premiumPriceId
  {
    if plan == "premium" then premiumPriceId else None
  }

  /** `${appUrl}/subscription/success?plan=${plan}`. */
  function SuccessUrl(appUrl: Option<string>, plan: string): string {
    appUrl.GetOr(DefaultAppUrl) + "/subscription/success?plan=" + plan
  }

  /** `${appUrl}/subscription/cancel`. */
  function CancelUrl(appUrl: Option<string>): string {
    appUrl.GetOr(DefaultAppUrl) + "/subscription/cancel"
  }

  /** JavaScript truthiness of an optional string. */
  predicate Truthy(s: Option<string>) {
    s.Some? && s.value != ""
  }

  /** `.eq('code', code).eq('active', true)`. */
  function ActiveWithCode(code: string): Coupon -> bool {
    (c: Coupon) => c.code == code && c.active
  }

  /** The voucher lookup: the single active coupon with that code. Several
      give the not-singular error; none, or one without a provider coupon
      id, is an invalid voucher. */
  function ResolveCoupon(coupons: seq<Coupon>, code: string): (r: Result<string, string>)
    ensures r.Success? <==> |Filter(coupons, ActiveWithCode(code))| == 1
                            && Truthy(Filter(coupons, ActiveWithCode(code))[0].stripeCouponId)
    ensures r.Success? ==> exists c :: c in coupons && c.code == code && c.active && c.stripeCouponId == Some(r.value)
    ensures |Filter(coupons, ActiveWithCode(code))| > 1 ==> r == Failure(NotSingular.message)
  {
    var matching := Filter(coupons, ActiveWithCode(code));
    match MaybeSingle(matching)
    case Failure(err) => Failure(err.message)
    case Success(found) =>
      if found.None? || !Truthy(found.value.stripeCouponId) then Failure("Invalid voucher code")
      else
        assert found.value == matching[0] && matching[0] in matching;
        Success(found.value.stripeCouponId.value)
  }

  /** The handler's answer, the `subscriptions` table after it, and the
      provider calls it makes. */
  datatype CheckoutOutcome = CheckoutOutcome(
    response: Response<string>,
    rows: SubscriptionTable,
    customerCreated: Option<CustomerRequest>,
    session: Option<SessionRequest>)

  /** The request checks, in order: the method, the provider, the caller,
      the plan and its price id. The first that fails gives the answer. */
  function GuardFailure(httpMethod: string, stripeConfigured: bool, user: Option<CheckoutUser>, body: CheckoutBody,
                        premiumPriceId: Option<string>): (failure: Option<Response<string>>)
    ensures failure.None? <==> httpMethod == "POST" && stripeConfigured && user.Some? && Truthy(body.plan)
                               && Truthy(PriceIdFor(body.plan.value, premiumPriceId))
  {
    if httpMethod != "POST" then Some(Fail(405, "Method not allowed"))
    else if !stripeConfigured then Some(Fail(500, "Stripe is not configured"))
    else if user.None? then Some(Fail(401, "Unauthorized. No token provided."))
    else if !Truthy(body.plan) then Some(Fail(400, "Missing plan"))
    else if !Truthy(PriceIdFor(body.plan.value, premiumPriceId)) then
      Some(Fail(400, "Plan is not available for checkout. Missing Stripe price ID."))
    else None
  }

  /** What the handler does. `newCustomer` is what creating a customer
      gives (an id or a thrown error), `premiumPriceId` and `appUrl` come
      from the environment, `created` is the provider's answer to the
      session request. */
  function CheckoutHandler(rows: SubscriptionTable, coupons: seq<Coupon>, httpMethod: string,
                           stripeConfigured: bool, user: Option<CheckoutUser>, body: CheckoutBody,
                           premiumPriceId: Option<string>, admin: Option<AdminClient>,
                           newCustomer: Result<string, string>, appUrl: Option<string>,
                           created: SessionResult): (out: CheckoutOutcome)
    ensures forall v :: v in rows && (user.None? || v != user.value.id) ==> v in out.rows && out.rows[v] == rows[v]
    ensures out.rows.Keys == rows.Keys || (user.Some? && out.rows.Keys == rows.Keys + {user.value.id})
    ensures GuardFailure(httpMethod, stripeConfigured, user, body, premiumPriceId).Some? ==>
              out.rows == rows && out.customerCreated.None? && out.session.None?
    ensures out.response.Ok? ==> out.session.Some?
    ensures out.session.Some? ==>
              httpMethod == "POST" && user.Some? && body.plan.Some? && user.value.id in out.rows
              && out.rows[user.value.id].stripeCustomerId == Some(out.session.value.customer)
              && out.session.value.metadataUserId == user.value.id
              && out.session.value.metadataPlan == body.plan.value
              && premiumPriceId.Some? && out.session.value.priceId == premiumPriceId.value
              && out.session.value.quantity == 1
  {
    var failure := GuardFailure(httpMethod, stripeConfigured, user, body, premiumPriceId);
    if failure.Some? then CheckoutOutcome(failure.value, rows, None, None)
    else if admin.None? then CheckoutOutcome(Unhandled(AdminNotConfigured), rows, None, None)
    else
      var plan := body.plan.value;
      CustomerStage(Ensured(rows, user.value.id, NoDefaults), coupons, user.value, plan,
                    PriceIdFor(plan, premiumPriceId).value, body.couponCode, newCustomer, appUrl, created)
  }

  /** After the row is ensured: creates the provider customer when the row
      has none and stores its id. */
  function CustomerStage(t: SubscriptionTable, coupons: seq<Coupon>, user: CheckoutUser, plan: string,
                         priceId: string, couponCode: Option<string>, newCustomer: Result<string, string>,
                         appUrl: Option<string>, created: SessionResult): (out: CheckoutOutcome)
    requires user.id in t
    ensures out.customerCreated.Some? <==> !Truthy(t[user.id].stripeCustomerId)
    ensures out.customerCreated.Some? ==> out.customerCreated.value == CustomerRequest(user.email, user.id)
    ensures Truthy(t[user.id].stripeCustomerId) ==> out.rows == t
    ensures out.rows.Keys == t.Keys && forall v :: v in t && v != user.id ==> out.rows[v] == t[v]
    ensures out.rows[user.id].(stripeCustomerId := t[user.id].stripeCustomerId) == t[user.id]
    ensures !Truthy(t[user.id].stripeCustomerId) && newCustomer.Failure? ==>
              out.response == Unhandled(newCustomer.error) && out.session.None? && out.rows == t
    ensures out.session.Some? ==>
              out.rows[user.id].stripeCustomerId == Some(out.session.value.customer)
              && out.session.value.metadataUserId == user.id && out.session.value.metadataPlan == plan
              && out.session.value.priceId == priceId && out.session.value.quantity == 1
    ensures out.response.Ok? ==> out.session.Some?
  {
    var u := user.id;
    var existing := t[u].stripeCustomerId;
    var request := CustomerRequest(user.email, u);
    if Truthy(existing) then
      SessionStage(t, existing.value, None, coupons, u, plan, priceId, couponCode, appUrl, created)
    else if newCustomer.Failure? then
      CheckoutOutcome(Unhandled(newCustomer.error), t, Some(request), None)
    else
      SessionStage(t[u := t[u].(stripeCustomerId := Some(newCustomer.value))], newCustomer.value, Some(request),
                   coupons, u, plan, priceId, couponCode, appUrl, created)
  }

  /** After the customer is known: resolves the voucher, then requests the
      session and answers with its URL. */
  function SessionStage(t: SubscriptionTable, customerId: string, customerCall: Option<CustomerRequest>,
                        coupons: seq<Coupon>, u: string, plan: string, priceId: string,
                        couponCode: Option<string>, appUrl: Option<string>, created: SessionResult): (out: CheckoutOutcome)
    ensures out.rows == t && out.customerCreated == customerCall
    ensures out.session.Some? <==> !(Truthy(couponCode) && ResolveCoupon(coupons, couponCode.value).Failure?)
    ensures out.session.None? ==> out.response.Status() == 400
    ensures out.session.Some? ==>
              && out.session.value.customer == customerId && out.session.value.priceId == priceId
              && out.session.value.quantity == 1 && out.session.value.allowPromotionCodes
              && out.session.value.metadataUserId == u && out.session.value.metadataPlan == plan
              && out.session.value.coupon
                 == (if Truthy(couponCode) then Some(ResolveCoupon(coupons, couponCode.value).value) else None)
    ensures out.response.Ok? ==> out.session.Some?
  {
    var coupon := if Truthy(couponCode) then Some(ResolveCoupon(coupons, couponCode.value)) else None;
    if coupon.Some? && coupon.value.Failure? then
      CheckoutOutcome(Fail(400, coupon.value.error), t, customerCall, None)
    else
      var session := SessionRequest(customerId, priceId, 1, SuccessUrl(appUrl, plan), CancelUrl(appUrl),
                                    u, plan, if coupon.Some? then Some(coupon.value.value) else None, true);
      CheckoutOutcome(SessionResponse(created), t, customerCall, Some(session))
  }

  /** The answer once the provider has been asked for a session. */
  function SessionResponse(created: SessionResult): (r: Response<string>)
    ensures r.Ok? <==> created.Created? && Truthy(created.url)
    ensures r.Ok? ==> r.value == created.url.value
    ensures !r.Ok? ==> r.Status() == 500
    ensures created.Threw? && created.message.Some? ==> r == Fail(500, created.message.value)
  {
    match created
    case Threw(message) => Fail(500, message.GetOr("Failed to create checkout session. Check Stripe configuration."))
    case Created(url) => if !Truthy(url) then Fail(500, "Stripe session created but no URL returned") else Ok(url.value)
  }

  /** The handler, run against the table. */
  method Handler(store: SubscriptionStore, coupons: seq<Coupon>, httpMethod: string, stripeConfigured: bool,
                 user: Option<CheckoutUser>, body: CheckoutBody, premiumPriceId: Option<string>,
                 admin: Option<AdminClient>, newCustomer: Result<string, string>, appUrl: Option<string>,
                 created: SessionResult)
    returns (resp: Response<string>, customerCreated: Option<CustomerRequest>, session: Option<SessionRequest>)
    requires store.Valid()
    modifies store
    ensures store.Valid()
    ensures CheckoutHandler(old(store.rows), coupons, httpMethod, stripeConfigured, user, body, premiumPriceId,
                            admin, newCustomer, appUrl, created)
            == CheckoutOutcome(resp, store.rows, customerCreated, session)
  {
    var failure := GuardFailure(httpMethod, stripeConfigured, user, body, premiumPriceId);
    if failure.Some? {
      return failure.value, None, None;
    }
    var plan := body.plan.value;
    var priceId := PriceIdFor(plan, premiumPriceId);
    var u := user.value.id;
    var row := store.EnsureSubscription(admin, u, NoDefaults);
    if row.Failure? {
      return Unhandled(row.error), None, None;
    }
    assert store.rows == Ensured(old(store.rows), u, NoDefaults) && u in store.rows;
    ghost var rest := CustomerStage(store.rows, coupons, user.value, plan, priceId.value, body.couponCode,
                                    newCustomer, appUrl, created);
    assert CheckoutHandler(old(store.rows), coupons, httpMethod, stripeConfigured, user, body, premiumPriceId,
                           admin, newCustomer, appUrl, created) == rest;
    resp, customerCreated, session := CustomerStep(store, coupons, user.value, plan, priceId.value, body.couponCode,
                                                   newCustomer, appUrl, created);
  }

  /** The customer step, run against the table once the caller's row is
      ensured: creates the provider customer when the row has none and
      stores its id, then requests the session. */
  method CustomerStep(store: SubscriptionStore, coupons: seq<Coupon>, user: CheckoutUser, plan: string,
                      priceId: string, couponCode: Option<string>, newCustomer: Result<string, string>,
                      appUrl: Option<string>, created: SessionResult)
    returns (resp: Response<string>, customerCreated: Option<CustomerRequest>, session: Option<SessionRequest>)
    requires store.Valid() && user.id in store.rows
    modifies store
    ensures store.Valid()
    ensures CustomerStage(old(store.rows), coupons, user, plan, priceId, couponCode, newCustomer, appUrl, created)
            == CheckoutOutcome(resp, store.rows, customerCreated, session)
  {
    var u := user.id;
    var customerId := store.rows[u].stripeCustomerId;
    customerCreated := None;
    if !Truthy(customerId) {
      customerCreated := Some(CustomerRequest(user.email, u));
      if newCustomer.Failure? {
        return Unhandled(newCustomer.error), customerCreated, None;
      }
      customerId := Some(newCustomer.value);
      store.rows := store.rows[u := store.rows[u].(stripeCustomerId := customerId)];
    }
    resp, session := RequestSession(store.rows, customerId.value, customerCreated, coupons, u, plan, priceId,
                                    couponCode, appUrl, created);
  }

  /** The session step: resolves the voucher, then requests the session and
      answers with its URL. Nothing is written. */
  method RequestSession(t: SubscriptionTable, customerId: string, customerCall: Option<CustomerRequest>,
                        coupons: seq<Coupon>, u: string, plan: string, priceId: string,
                        couponCode: Option<string>, appUrl: Option<string>, created: SessionResult)
    returns (resp: Response<string>, session: Option<SessionRequest>)
    ensures SessionStage(t, customerId, customerCall, coupons, u, plan, priceId, couponCode, appUrl, created)
            == CheckoutOutcome(resp, t, customerCall, session)
  {
    var coupon := if Truthy(couponCode) then Some(ResolveCoupon(coupons, couponCode.value)) else None;
    if coupon.Some? && coupon.value.Failure? {
      return Fail(400, coupon.value.error), None;
    }
    session := Some(SessionRequest(customerId, priceId, 1, SuccessUrl(appUrl, plan), CancelUrl(appUrl),
                                   u, plan, if coupon.Some? then Some(coupon.value.value) else None, true));
    resp := SessionResponse(created);
  }

  /** The guards run in order (method 405, provider 500, caller 401, plan
      400), and none of them writes or calls the provider. */
  lemma CheckoutGuardOrder(rows: SubscriptionTable, coupons: seq<Coupon>, httpMethod: string,
                           stripeConfigured: bool, user: Option<CheckoutUser>, body: CheckoutBody,
                           premiumPriceId: Option<string>, admin: Option<AdminClient>,
                           newCustomer: Result<string, string>, appUrl: Option<string>, created: SessionResult)
    requires httpMethod != "POST" || !stripeConfigured || user.None? || !Truthy(body.plan)
    ensures var out := CheckoutHandler(rows, coupons, httpMethod, stripeConfigured, user, body, premiumPriceId,
                                       admin, newCustomer, appUrl, created);
            && out.rows == rows && out.customerCreated.None? && out.session.None?
            && out.response.Status() == (if httpMethod != "POST" then 405
                                         else if !stripeConfigured then 500
                                         else if user.None? then 401 else 400)
  {
  }

  /** A plan without a price id (free always, premium when its price id is
      not configured, any other name) is refused with 400 before anything is
      written. */
  lemma NoPriceNoCheckout(rows: SubscriptionTable, coupons: seq<Coupon>, user: CheckoutUser, plan: string,
                          couponCode: Option<string>, premiumPriceId: Option<string>, admin: Option<AdminClient>,
                          newCustomer: Result<string, string>, appUrl: Option<string>, created: SessionResult)
    requires plan != "" && !Truthy(PriceIdFor(plan, premiumPriceId))
    ensures var out := CheckoutHandler(rows, coupons, "POST", true, Some(user), CheckoutBody(Some(plan), couponCode),
                                       premiumPriceId, admin, newCustomer, appUrl, created);
            && out.response == Fail(400, "Plan is not available for checkout. Missing Stripe price ID.")
            && out.rows == rows && out.session.None?
    ensures !Truthy(PriceIdFor("free", premiumPriceId))
  {
  }

  /** A provider customer is created, and its id stored on the caller's
      row, exactly when the row has no customer id; an existing id is reused
      for the session. */
  lemma CustomerBackfill(rows: SubscriptionTable, coupons: seq<Coupon>, user: CheckoutUser, body: CheckoutBody,
                         premiumPriceId: Option<string>, admin: Option<AdminClient>, newId: string,
                         appUrl: Option<string>, created: SessionResult)
    requires Truthy(body.plan) && Truthy(PriceIdFor(body.plan.value, premiumPriceId)) && admin.Some?
    ensures var out := CheckoutHandler(rows, coupons, "POST", true, Some(user), body, premiumPriceId,
                                       admin, Success(newId), appUrl, created);
            var had := if user.id in rows then rows[user.id].stripeCustomerId else None;
            && (out.customerCreated.Some? <==> !Truthy(had))
            && user.id in out.rows
            && out.rows[user.id].stripeCustomerId == (if Truthy(had) then had else Some(newId))
            && (out.session.Some? ==> out.session.value.customer == (if Truthy(had) then had.value else newId))
  {
    ReachesSessionStage(rows, coupons, user, body, premiumPriceId, admin, newId, appUrl, created);
  }

  /** Past the guards and with the admin client, the handler reaches the
      session step with the caller's ensured row, whose customer id is the
      stored one or the newly created one. */
  lemma ReachesSessionStage(rows: SubscriptionTable, coupons: seq<Coupon>, user: CheckoutUser, body: CheckoutBody,
                            premiumPriceId: Option<string>, admin: Option<AdminClient>, newId: string,
                            appUrl: Option<string>, created: SessionResult)
    requires Truthy(body.plan) && Truthy(PriceIdFor(body.plan.value, premiumPriceId)) && admin.Some?
    ensures var t := Ensured(rows, user.id, NoDefaults);
            var had := t[user.id].stripeCustomerId;
            var cid := if Truthy(had) then had.value else newId;
            CheckoutHandler(rows, coupons, "POST", true, Some(user), body, premiumPriceId, admin, Success(newId),
                            appUrl, created)
            == SessionStage(t[user.id := t[user.id].(stripeCustomerId := Some(cid))], cid,
                            if Truthy(had) then None else Some(CustomerRequest(user.email, user.id)),
                            coupons, user.id, body.plan.value, PriceIdFor(body.plan.value, premiumPriceId).value,
                            body.couponCode, appUrl, created)
  {
    var t := Ensured(rows, user.id, NoDefaults);
    var had := t[user.id].stripeCustomerId;
    if Truthy(had) {
      assert t[user.id := t[user.id].(stripeCustomerId := had)] == t;
    }
  }

  /** With a voucher code, a session is requested only when exactly one
      active coupon has that code and it carries a provider coupon id, which
      the session then uses; otherwise the answer is 400. */
  lemma VoucherGate(rows: SubscriptionTable, coupons: seq<Coupon>, user: CheckoutUser, plan: string, code: string,
                    premiumPriceId: Option<string>, admin: Option<AdminClient>, newId: string,
                    appUrl: Option<string>, created: SessionResult)
    requires plan != "" && code != "" && Truthy(PriceIdFor(plan, premiumPriceId)) && admin.Some?
    ensures var out := CheckoutHandler(rows, coupons, "POST", true, Some(user), CheckoutBody(Some(plan), Some(code)),
                                       premiumPriceId, admin, Success(newId), appUrl, created);
            && (out.session.Some? <==> ResolveCoupon(coupons, code).Success?)
            && (out.session.Some? ==> out.session.value.coupon == Some(ResolveCoupon(coupons, code).value))
            && (out.session.None? ==> out.response.Status() == 400)
            && (Filter(coupons, ActiveWithCode(code)) == [] ==> out.response == Fail(400, "Invalid voucher code"))
  {
    ReachesSessionStage(rows, coupons, user, CheckoutBody(Some(plan), Some(code)), premiumPriceId, admin, newId, appUrl, created);
  }

  /** The session request carries the success and cancel URLs (under the
      local default when no application URL is configured), one unit of the
      plan's price, and the caller and plan as metadata; the answer is the
      session's URL, or 500 when it has none. */
  lemma SessionRequestShape(rows: SubscriptionTable, coupons: seq<Coupon>, user: CheckoutUser, plan: string,
                            premiumPriceId: Option<string>, admin: Option<AdminClient>, newId: string,
                            appUrl: Option<string>, url: Option<string>)
    requires plan != "" && Truthy(PriceIdFor(plan, premiumPriceId)) && admin.Some?
    ensures var out := CheckoutHandler(rows, coupons, "POST", true, Some(user), CheckoutBody(Some(plan), None),
                                       premiumPriceId, admin, Success(newId), appUrl, Created(url));
            && out.session.Some?
            && out.session.value.successUrl
               == (if appUrl.Some? then appUrl.value else "http://localhost:3000") + "/subscription/success?plan=" + plan
            && out.session.value.cancelUrl
               == (if appUrl.Some? then appUrl.value else "http://localhost:3000") + "/subscription/cancel"
            && out.session.value.priceId == premiumPriceId.value && out.session.value.quantity == 1
            && out.session.value.metadataUserId == user.id && out.session.value.metadataPlan == plan
            && out.session.value.coupon.None?
            && out.response == (if Truthy(url) then Ok(url.value) else Fail(500, "Stripe session created but no URL returned"))
  {
    ReachesSessionStage(rows, coupons, user, CheckoutBody(Some(plan), None), premiumPriceId, admin, newId, appUrl, Created(url));
  }

  /** Because the handler ensures the row with the upsert, a caller who is
      already premium and starts another checkout is written back to the
      free plan and inactive status before the session is requested. */
  lemma CheckoutDemotesExistingRow(rows: SubscriptionTable, coupons: seq<Coupon>, user: CheckoutUser,
                                   premiumPriceId: Option<string>, admin: Option<AdminClient>, newId: string,
                                   appUrl: Option<string>, created: SessionResult)
    requires user.id in rows && rows[user.id].plan == "premium" && rows[user.id].status == "active"
    requires Truthy(premiumPriceId) && admin.Some?
    ensures var out := CheckoutHandler(rows, coupons, "POST", true, Some(user), CheckoutBody(Some("premium"), None),
                                       premiumPriceId, admin, Success(newId), appUrl, created);
            out.rows[user.id].plan == "free" && out.rows[user.id].status == "inactive"
  {
  }
}
