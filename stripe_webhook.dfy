/** POST /api/stripe/webhook: records each verified payment-provider event
    once by its id and reconciles the caller's `subscriptions` row with
    checkout-completed, subscription-updated and subscription-deleted
    events. */
module StripeWebhook {
  import opened Wrappers
  import opened Http
  import opened Postgrest
  import opened SubscriptionPlans
  import opened SubscriptionServer

  const CheckoutCompleted := "checkout.session.completed"
  const SubscriptionUpdated := "customer.subscription.updated"
  const SubscriptionDeleted := "customer.subscription.deleted"

  /** A checkout session's `subscription`: null, an id, or the expanded
      object (of which only the id is used). */
  datatype SubscriptionRef = NoSubscription | SubscriptionId(id: string) | ExpandedSubscription(id: string)

  /** `event.data.object`, for the event types the handler reads. */
  datatype EventObject =
    | CheckoutSession(metadata: map<string, string>, customer: Option<string>, subscription: SubscriptionRef)
    | ProviderSubscription(id: string, customer: Option<string>, metadata: map<string, string>,
                           status: string, currentPeriodEnd: int)
    | OtherObject

  /** A verified event. */
  datatype StripeEvent = StripeEvent(id: string, eventType: string, data: EventObject)

  /** What retrieving a subscription from the provider yields. */
  datatype RetrievedSubscription = RetrievedSubscription(status: string, currentPeriodEnd: int)

  /** A row of `stripe_webhook_events`, keyed by event id. */
  datatype LoggedEvent = LoggedEvent(eventType: string, payload: StripeEvent)

  type EventLog = map<string, LoggedEvent>

  /** JavaScript truthiness of an optional string. */
  predicate Truthy(s: Option<string>) {
    s.Some? && s.value != ""
  }

  /** `metadata?.[key]`. */
  function Lookup(m: map<string, string>, key: string): (r: Option<string>)
    ensures r.Some? <==> key in m
    ensures r.Some? ==> r.value == m[key]
  {
    if key in m then Some(m[key]) else None
  }

  /** The upsert with `ignoreDuplicates` on `event_id`: the first record of
      an id stays, a replay adds nothing. */
  function Logged(log: EventLog, e: StripeEvent): (r: EventLog)
    ensures e.id in r && r.Keys == log.Keys + {e.id}
    ensures e.id in log ==> r == log
    ensures e.id !in log ==> r[e.id] == LoggedEvent(e.eventType, e)
    ensures forall k :: k in log ==> r[k] == log[k]
  {
    if e.id in log then log else log[e.id := LoggedEvent(e.eventType, e)]
  }

  /** Logging is idempotent. */
  lemma LoggedIdempotent(log: EventLog, e: StripeEvent)
    ensures Logged(Logged(log, e), e) == Logged(log, e)
  {
  }

  /** The users whose row carries customer id `c`. */
  ghost function CustomerUsers(t: SubscriptionTable, c: string): set<string> {
    set u | u in t && t[u].stripeCustomerId == Some(c)
  }

  /** A set of one element holding `u` is `{u}`. */
  lemma SingletonOf(s: set<string>, u: string)
    requires |s| == 1 && u in s
    ensures s == {u}
  {
    assert |s - {u}| == 0;
  }

  /** findUserIdByCustomer: `.eq('stripe_customer_id', c).maybeSingle()`,
      so a user is found only when exactly one row carries the customer id;
      none or several (an error, whose data is null) give undefined. */
  ghost function CustomerOwner(t: SubscriptionTable, c: string): (r: Option<string>)
    ensures r.Some? <==> |CustomerUsers(t, c)| == 1
    ensures r.Some? ==> CustomerUsers(t, c) == {r.value}
  {
    var users := CustomerUsers(t, c);
    if |users| == 1 then
      var u :| u in users;
      SingletonOf(users, u);
      Some(u)
    else None
  }

  /** The user an updated/deleted event is for: the metadata `userId` when
      truthy, otherwise the owner of the event's customer id when that is
      truthy; a falsy result is no user. */
  ghost function ResolveUser(t: SubscriptionTable, metadata: map<string, string>, customer: Option<string>): (r: Option<string>)
    ensures r.Some? ==> r.value != ""
    ensures Truthy(Lookup(metadata, "userId")) ==> r == Some(metadata["userId"])
    ensures !Truthy(Lookup(metadata, "userId")) && !Truthy(customer) ==> r.None?
  {
    var fromMeta := Lookup(metadata, "userId");
    if Truthy(fromMeta) then fromMeta
    else if Truthy(customer) then
      var owner := CustomerOwner(t, customer.value);
      if Truthy(owner) then owner else None
    else None
  }

  /** nextPlan: free when the subscription is canceled or deleted,
      otherwise the metadata plan, or `'pro'` when it has none. */
  function NextPlan(status: string, eventType: string, planMeta: Option<string>): (plan: string)
    ensures status == "canceled" || eventType == SubscriptionDeleted ==> plan == "free"
    ensures status != "canceled" && eventType != SubscriptionDeleted ==>
              plan == (if planMeta.Some? then planMeta.value else "pro")
  {
    if status == "canceled" || eventType == SubscriptionDeleted then "free" else planMeta.GetOr("pro")
  }

  /** The fallback `'pro'` names no tier, so a row it is written to has no
      limits: every later quota check of that user fails. */
  lemma ProIsNoTier()
    ensures ParseTier("pro").None?
    ensures GetLimitsForPlan(NextPlan("active", SubscriptionUpdated, None)).None?
  {
  }

  /** The upsert of a completed checkout: the row of `u` gets the customer,
      the subscription id, the plan, and the retrieved status and period
      end; an existing row keeps its storage, a new one starts at zero. */
  function CheckoutWrite(t: SubscriptionTable, u: string, customer: Option<string>, subId: string,
                         plan: string, r: RetrievedSubscription): (t': SubscriptionTable)
    ensures u in t' && t'.Keys == t.Keys + {u}
    ensures t'[u] == SubscriptionRow(u, customer, Some(subId), plan, r.status, Some(r.currentPeriodEnd),
                                     if u in t then t[u].storageUsedMb else 0)
    ensures forall v :: v in t && v != u ==> t'[v] == t[v]
  {
    if u in t then
      t[u := t[u].(userId := u, stripeCustomerId := customer, stripeSubscriptionId := Some(subId), plan := plan,
                   status := r.status, currentPeriodEnd := Some(r.currentPeriodEnd))]
    else t[u := SubscriptionRow(u, customer, Some(subId), plan, r.status, Some(r.currentPeriodEnd), 0)]
  }

  /** The update of an updated/deleted event, `.eq('user_id', u)`: nothing
      when `u` has no row. */
  function SubscriptionWrite(t: SubscriptionTable, u: string, eventType: string, s: EventObject): (t': SubscriptionTable)
    requires s.ProviderSubscription?
    ensures t'.Keys == t.Keys
    ensures u in t ==> t'[u] == SubscriptionRow(
                         t[u].userId, s.customer,
                         if eventType == SubscriptionDeleted then None else Some(s.id),
                         NextPlan(s.status, eventType, Lookup(s.metadata, "plan")),
                         s.status, Some(s.currentPeriodEnd), t[u].storageUsedMb)
    ensures forall v :: v in t && v != u ==> t'[v] == t[v]
    ensures u !in t ==> t' == t
  {
    if u in t then
      t[u := t[u].(plan := NextPlan(s.status, eventType, Lookup(s.metadata, "plan")),
                   status := s.status,
                   currentPeriodEnd := Some(s.currentPeriodEnd),
                   stripeSubscriptionId := if eventType == SubscriptionDeleted then None else Some(s.id),
                   stripeCustomerId := s.customer)]
    else t
  }

  /** The subscription id of a checkout session, string or expanded. */
  function SessionSubscriptionId(r: SubscriptionRef): Option<string> {
    match r
    case NoSubscription => None
    case SubscriptionId(id) => Some(id)
    case ExpandedSubscription(id) => Some(id)
  }

  /** A completed checkout is applied when its metadata has a truthy
      `userId` and a `plan`, and it names a truthy subscription id. */
  predicate CheckoutApplies(e: StripeEvent) {
    e.eventType == CheckoutCompleted && e.data.CheckoutSession?
    && Truthy(Lookup(e.data.metadata, "userId"))
    && Truthy(SessionSubscriptionId(e.data.subscription))
    && "plan" in e.data.metadata
  }

  /** An updated or deleted subscription event. */
  predicate IsSubscriptionChange(e: StripeEvent) {
    (e.eventType == SubscriptionUpdated || e.eventType == SubscriptionDeleted) && e.data.ProviderSubscription?
  }

  /** The `subscriptions` table after the switch on the event type, or the
      provider's error when retrieving the subscription fails. */
  ghost function ApplyEvent(t: SubscriptionTable, e: StripeEvent, retrieved: Result<RetrievedSubscription, string>)
    : (r: Result<SubscriptionTable, string>)
    ensures r.Failure? <==> CheckoutApplies(e) && retrieved.Failure?
    ensures r.Failure? ==> r.error == retrieved.error
    ensures r.Success? ==> t.Keys <= r.value.Keys
    ensures r.Success? && !CheckoutApplies(e) ==> r.value.Keys == t.Keys
    ensures r.Success? ==> forall v :: v in t ==> r.value[v].storageUsedMb == t[v].storageUsedMb
    ensures !CheckoutApplies(e) && !IsSubscriptionChange(e) ==> r == Success(t)
  {
    if CheckoutApplies(e) then
      match retrieved
      case Failure(err) => Failure(err)
      case Success(r) =>
        var s := e.data;
        Success(CheckoutWrite(t, s.metadata["userId"], s.customer, SessionSubscriptionId(s.subscription).value,
                              s.metadata["plan"], r))
    else if IsSubscriptionChange(e) then
      var user := ResolveUser(t, e.data.metadata, e.data.customer);
      if user.Some? then Success(SubscriptionWrite(t, user.value, e.eventType, e.data)) else Success(t)
    else Success(t)
  }

  /** The handler's answer, the event log and the `subscriptions` table
      after it. */
  datatype WebhookOutcome = WebhookOutcome(response: Response<bool>, log: EventLog, rows: SubscriptionTable)

  /** What the handler does, given whether the provider client is
      configured, the webhook secret, the outcome of signature verification,
      the admin client and the outcome of retrieving the subscription. */
  ghost function WebhookPost(log: EventLog, t: SubscriptionTable, stripeConfigured: bool, secret: Option<string>,
                             verified: Result<StripeEvent, string>, admin: Option<AdminClient>,
                             retrieved: Result<RetrievedSubscription, string>): (out: WebhookOutcome)
    ensures forall id :: id in log ==> id in out.log && out.log[id] == log[id]
    ensures out.log.Keys == log.Keys || (verified.Success? && out.log.Keys == log.Keys + {verified.value.id})
    ensures !out.response.Ok? ==> out.rows == t
    ensures out.response.Ok? ==> verified.Success? && verified.value.id in out.log
    ensures t.Keys <= out.rows.Keys
    ensures forall v :: v in t ==> out.rows[v].storageUsedMb == t[v].storageUsedMb
  {
    if !stripeConfigured then WebhookOutcome(Fail(500, "Stripe not configured"), log, t)
    else if !Truthy(secret) then WebhookOutcome(Fail(500, "Webhook secret missing"), log, t)
    else if verified.Failure? then WebhookOutcome(Fail(400, "Webhook Error: " + verified.error), log, t)
    else if admin.None? then WebhookOutcome(Unhandled(AdminNotConfigured), log, t)
    else
      var e := verified.value;
      var log' := Logged(log, e);
      match ApplyEvent(t, e, retrieved)
      case Failure(err) => WebhookOutcome(Unhandled(err), log', t)
      case Success(t') => WebhookOutcome(Ok(true), log', t')
  }

  /** The `stripe_webhook_events` table. */
  class WebhookEventLog {
    var events: EventLog

    constructor (initial: EventLog)
      ensures events == initial
    {
      events := initial;
    }

    /** Records an event unless its id is already recorded. */
    method Record(e: StripeEvent)
      modifies this
      ensures events == Logged(old(events), e)
    {
      if e.id !in events {
        events := events[e.id := LoggedEvent(e.eventType, e)];
      }
    }
  }

  /** findUserIdByCustomer, run against the table: collects the users whose
      row carries the customer id, then takes the single one. */
  method FindUserIdByCustomer(store: SubscriptionStore, c: string) returns (r: Option<string>)
    ensures r == CustomerOwner(store.rows, c)
  {
    var found := CollectOwners(store.rows, c);
    ghost var users := CustomerUsers(store.rows, c);
    var single := MaybeSingle(found);
    if single.Success? && single.value.Some? {
      assert |found| == 1 && found[0] in users;
      SingletonOf(users, found[0]);
      r := Some(found[0]);
    } else {
      r := None;
    }
  }

  /** The rows matched by `.eq('stripe_customer_id', c)`, visited one key at
      a time: every user whose row carries the customer id, each once. */
  method CollectOwners(rows: SubscriptionTable, c: string) returns (found: seq<string>)
    ensures forall x :: x in found <==> x in CustomerUsers(rows, c)
    ensures |found| == |CustomerUsers(rows, c)|
  {
    var keys := rows.Keys;
    found := [];
    ghost var seen: set<string> := {};
    while keys != {}
      invariant keys <= rows.Keys && seen !! keys
      invariant forall x :: x in seen <==> x in rows && rows[x].stripeCustomerId == Some(c) && x !in keys
      invariant forall x :: x in found <==> x in seen
      invariant |found| == |seen|
      decreases |keys|
    {
      var k :| k in keys;
      if rows[k].stripeCustomerId == Some(c) {
        found := found + [k];
        seen := seen + {k};
      }
      keys := keys - {k};
    }
    assert seen == CustomerUsers(rows, c);
  }

  /** The handler, run against the two tables. */
  method Post(store: SubscriptionStore, events: WebhookEventLog, stripeConfigured: bool, secret: Option<string>,
              verified: Result<StripeEvent, string>, admin: Option<AdminClient>,
              retrieved: Result<RetrievedSubscription, string>) returns (resp: Response<bool>)
    requires store.Valid()
    modifies store, events
    ensures store.Valid()
    ensures WebhookPost(old(events.events), old(store.rows), stripeConfigured, secret, verified, admin, retrieved)
            == WebhookOutcome(resp, events.events, store.rows)
  {
    if !stripeConfigured {
      return Fail(500, "Stripe not configured");
    }
    if secret.None? || secret.value == "" {
      return Fail(500, "Webhook secret missing");
    }
    if verified.Failure? {
      return Fail(400, "Webhook Error: " + verified.error);
    }
    var client := RequireSupabaseAdmin(admin);
    if client.Failure? {
      return Unhandled(client.error);
    }
    var e := verified.value;
    events.Record(e);
    var failure := ApplyToStore(store, e, retrieved);
    if failure.Some? {
      return Unhandled(failure.value);
    }
    resp := Ok(true);
  }

  /** The event's effect on the table: a completed checkout upserts the
      session's values (throwing when the subscription cannot be retrieved),
      an updated or deleted subscription rewrites the resolved user's row,
      any other event is ignored. */
  method ApplyToStore(store: SubscriptionStore, e: StripeEvent, retrieved: Result<RetrievedSubscription, string>)
    returns (failure: Option<string>)
    requires store.Valid()
    modifies store
    ensures store.Valid()
    ensures ApplyEvent(old(store.rows), e, retrieved)
            == if failure.Some? then Failure(failure.value) else Success(store.rows)
    ensures failure.Some? ==> store.rows == old(store.rows)
  {
    failure := None;
    if CheckoutApplies(e) {
      if retrieved.Failure? {
        return Some(retrieved.error);
      }
      var s := e.data;
      store.rows := CheckoutWrite(store.rows, s.metadata["userId"], s.customer,
                                  SessionSubscriptionId(s.subscription).value, s.metadata["plan"], retrieved.value);
    } else if IsSubscriptionChange(e) {
      var s := e.data;
      var user := Lookup(s.metadata, "userId");
      if !Truthy(user) && Truthy(s.customer) {
        user := FindUserIdByCustomer(store, s.customer.value);
      }
      if Truthy(user) {
        store.rows := SubscriptionWrite(store.rows, user.value, e.eventType, s);
      }
    }
  }

  /** A missing provider client or secret (500) or a failed signature check
      (400) changes neither table. */
  lemma WebhookGuards(log: EventLog, t: SubscriptionTable, stripeConfigured: bool, secret: Option<string>,
                      verified: Result<StripeEvent, string>, admin: Option<AdminClient>,
                      retrieved: Result<RetrievedSubscription, string>)
    requires !stripeConfigured || !Truthy(secret) || verified.Failure?
    ensures var out := WebhookPost(log, t, stripeConfigured, secret, verified, admin, retrieved);
            && out.log == log && out.rows == t
            && out.response.Status() == (if stripeConfigured && Truthy(secret) then 400 else 500)
  {
  }

  /** Once verified (and with the admin client), every event is recorded
      under its id, a replay keeps the first record, and the handler goes on
      to process the event either way: the answer is `{received: true}`
      unless retrieving a checkout's subscription fails. */
  lemma WebhookLogsEveryEvent(log: EventLog, t: SubscriptionTable, secret: Option<string>,
                              e: StripeEvent, admin: Option<AdminClient>,
                              retrieved: Result<RetrievedSubscription, string>)
    requires Truthy(secret) && admin.Some?
    ensures var out := WebhookPost(log, t, true, secret, Success(e), admin, retrieved);
            && out.log == Logged(log, e)
            && (e.id in log ==> out.log[e.id] == log[e.id])
            && (out.response == Ok(true) <==> !(CheckoutApplies(e) && retrieved.Failure?))
            && (out.response.Ok? ==> Success(out.rows) == ApplyEvent(t, e, retrieved))
  {
  }

  /** A completed checkout writes exactly when user, subscription id and
      plan are all present; then the user's row holds the session's values
      and the retrieved status and period end. */
  lemma CheckoutCompletedWrites(t: SubscriptionTable, e: StripeEvent, r: RetrievedSubscription)
    requires e.eventType == CheckoutCompleted && e.data.CheckoutSession?
    ensures !CheckoutApplies(e) ==> ApplyEvent(t, e, Success(r)) == Success(t)
    ensures CheckoutApplies(e) ==>
              var u := e.data.metadata["userId"];
              var t' := ApplyEvent(t, e, Success(r)).value;
              && u in t'
              && t'[u].plan == e.data.metadata["plan"]
              && t'[u].stripeCustomerId == e.data.customer
              && t'[u].stripeSubscriptionId == SessionSubscriptionId(e.data.subscription)
              && t'[u].status == r.status && t'[u].currentPeriodEnd == Some(r.currentPeriodEnd)
              && forall v :: v in t && v != u ==> t'[v] == t[v]
  {
  }

  /** An updated or deleted event writes only when a user resolves, and
      only to that user's row: the plan follows nextPlan, the subscription id
      is cleared on deletion and kept on update. */
  lemma SubscriptionChangeWrites(t: SubscriptionTable, e: StripeEvent, retrieved: Result<RetrievedSubscription, string>)
    requires IsSubscriptionChange(e)
    ensures var user := ResolveUser(t, e.data.metadata, e.data.customer);
            var t' := ApplyEvent(t, e, retrieved).value;
            && ApplyEvent(t, e, retrieved).Success?
            && (user.None? ==> t' == t)
            && (user.Some? && user.value in t ==>
                  t'[user.value].plan == NextPlan(e.data.status, e.eventType, Lookup(e.data.metadata, "plan"))
                  && t'[user.value].status == e.data.status
                  && t'[user.value].stripeSubscriptionId
                     == (if e.eventType == SubscriptionDeleted then None else Some(e.data.id)))
            && (forall v :: v in t && (user.None? || v != user.value) ==> v in t' && t'[v] == t[v])
  {
  }

  /** No event writes `storage_used_mb`: every existing row keeps its
      usage, and a row created by a checkout starts at zero. */
  lemma WebhookNeverWritesStorage(log: EventLog, t: SubscriptionTable, stripeConfigured: bool, secret: Option<string>,
                                  verified: Result<StripeEvent, string>, admin: Option<AdminClient>,
                                  retrieved: Result<RetrievedSubscription, string>)
    ensures var out := WebhookPost(log, t, stripeConfigured, secret, verified, admin, retrieved).rows;
            forall v :: v in out ==> out[v].storageUsedMb == (if v in t then t[v].storageUsedMb else 0)
  {
  }

  /** Resolving by customer id finds the same user after that user's row
      has been rewritten with the same customer id. */
  lemma CustomerOwnerStable(t: SubscriptionTable, u: string, c: string, row: SubscriptionRow)
    requires CustomerOwner(t, c) == Some(u) && row.stripeCustomerId == Some(c)
    ensures CustomerOwner(t[u := row], c) == Some(u)
  {
    assert CustomerUsers(t[u := row], c) == CustomerUsers(t, c);
  }

  /** Every write sets absolute values, so processing the same event a
      second time leaves the `subscriptions` table as the first time did. */
  lemma ApplyEventIdempotent(t: SubscriptionTable, e: StripeEvent, r: RetrievedSubscription)
    ensures ApplyEvent(t, e, Success(r)).Success?
    ensures ApplyEvent(ApplyEvent(t, e, Success(r)).value, e, Success(r)) == ApplyEvent(t, e, Success(r))
  {
    var t1 := ApplyEvent(t, e, Success(r)).value;
    var t2 := ApplyEvent(t1, e, Success(r)).value;
    if CheckoutApplies(e) {
      var m := e.data;
      var u := m.metadata["userId"];
      var id := SessionSubscriptionId(m.subscription).value;
      assert t1 == CheckoutWrite(t, u, m.customer, id, m.metadata["plan"], r);
      assert t2 == CheckoutWrite(t1, u, m.customer, id, m.metadata["plan"], r);
      assert t2.Keys == t1.Keys;
      assert t2[u] == t1[u];
      assert forall v :: v in t2 ==> t2[v] == t1[v];
      assert t2 == t1;
    } else if IsSubscriptionChange(e) {
      var s := e.data;
      var user := ResolveUser(t, s.metadata, s.customer);
      if user.Some? {
        var u := user.value;
        assert t1 == SubscriptionWrite(t, u, e.eventType, s);
        if !Truthy(Lookup(s.metadata, "userId")) {
          assert u in t;
          CustomerOwnerStable(t, u, s.customer.value, t1[u]);
          assert t1 == t[u := t1[u]];
        }
        assert ResolveUser(t1, s.metadata, s.customer) == user;
        assert t2 == SubscriptionWrite(t1, u, e.eventType, s);
        assert t2.Keys == t1.Keys;
        assert forall v :: v in t2 ==> t2[v] == t1[v];
        assert t2 == t1;
      } else {
        assert ResolveUser(t1, s.metadata, s.customer) == user;
      }
    }
  }

  /** Replaying a recorded event through the whole handler changes nothing
      further: the log and the table are those of the first delivery. */
  lemma WebhookReplay(log: EventLog, t: SubscriptionTable, secret: Option<string>, e: StripeEvent,
                      admin: Option<AdminClient>, r: RetrievedSubscription)
    requires Truthy(secret) && admin.Some?
    ensures var first := WebhookPost(log, t, true, secret, Success(e), admin, Success(r));
            var second := WebhookPost(first.log, first.rows, true, secret, Success(e), admin, Success(r));
            second == first
  {
    ApplyEventIdempotent(t, e, r);
  }
}
