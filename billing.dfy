/** Module billing: the plan catalogue, the shape of a checkout session for
    a module purchase, and the webhook handler that turns Stripe events
    into changes of a company's enabled modules and subscription list.
    Stripe itself (customers, sessions, signatures) is outside the model:
    the customer id arrives as a parameter and events arrive parsed. */
module Billing {
  import opened Common

  // ---------------------------------------------------------------------
  // Plans and checkout sessions
  // ---------------------------------------------------------------------

  /** A plan of `MODULE_PLANS`; `interval` is absent for a one-off price. */
  datatype Plan = Plan(name: string, priceId: string, amount: int, currency: string, interval: Option<string>)

  /** The Stripe price ids read from the environment (empty when unset). */
  datatype PriceIds = PriceIds(hotelBasic: string, hotelPro: string, tourBasic: string)

  function ModulePlans(env: PriceIds): map<string, map<string, Plan>> {
    map[
      "hotel" := map[
        "basic" := Plan("Hotel Basic", env.hotelBasic, 2999, "usd", Some("month")),
        "pro" := Plan("Hotel Pro", env.hotelPro, 4999, "usd", Some("month"))],
      "tour" := map[
        "basic" := Plan("Tour Basic", env.tourBasic, 1999, "usd", Some("month"))]]
  }

  datatype Subscription = Subscription(
    moduleName: string,
    planId: Option<string>,
    planName: Option<string>,
    status: string,
    stripeSubscriptionId: Option<string>,
    stripePriceId: Option<string>,
    startDate: string,
    endDate: Option<string>)

  datatype Company = Company(
    id: string,
    name: Option<string>,
    contactEmail: Option<string>,
    stripeCustomerId: Option<string>,
    modulesEnabled: map<string, bool>,
    subscriptions: seq<Subscription>)

  /** The first company with this id, as `find_one({"id": ...})` returns it. */
  function FindCompany(cs: seq<Company>, id: string): (r: Option<nat>)
    ensures r.Some? ==> r.value < |cs| && cs[r.value].id == id && forall k | 0 <= k < r.value :: cs[k].id != id
    ensures r.None? ==> forall k | 0 <= k < |cs| :: cs[k].id != id
  {
    if cs == [] then None
    else if cs[0].id == id then Some(0)
    else match FindCompany(cs[1..], id)
      case None => None
      case Some(k) => Some(k + 1)
  }

  /** The first company whose `billing.stripe_customer_id` equals the given
      value; as in the document store, an absent value matches an absent
      field. */
  function FindByCustomer(cs: seq<Company>, customer: Option<string>): (r: Option<nat>)
    ensures r.Some? ==> r.value < |cs| && cs[r.value].stripeCustomerId == customer
                        && forall k | 0 <= k < r.value :: cs[k].stripeCustomerId != customer
    ensures r.None? ==> forall k | 0 <= k < |cs| :: cs[k].stripeCustomerId != customer
  {
    if cs == [] then None
    else if cs[0].stripeCustomerId == customer then Some(0)
    else match FindByCustomer(cs[1..], customer)
      case None => None
      case Some(k) => Some(k + 1)
  }

  function UpperChar(c: char): char {
    if 'a' <= c <= 'z' then (c as int - 'a' as int + 'A' as int) as char else c
  }

  /** Python's `str.capitalize` on ASCII text. */
  function Capitalize(s: string): (r: string)
    ensures |r| == |s|
    ensures s != [] ==> r[0] == UpperChar(s[0]) && r[1..] == Lower(s[1..])
  {
    if s == [] then [] else [UpperChar(s[0])] + Lower(s[1..])
  }

  datatype LineItem =
    | PriceRef(price: string, quantity: nat)
    | PriceData(unitAmount: int, currency: string, productName: string, description: string,
                recurring: Option<string>, quantity: nat)

  datatype SessionData = SessionData(
    customer: string,
    paymentMethodTypes: seq<string>,
    mode: string,
    successUrl: string,
    cancelUrl: string,
    metadata: map<string, string>,
    lineItems: seq<LineItem>)

  datatype CheckoutOutcome = Session(data: SessionData) | CheckoutError(message: string)

  /** The session `create_checkout_session` hands to Stripe for a plan. */
  function SessionFor(customer: string, companyId: string, moduleName: string, planId: string, plan: Plan,
                      successUrl: string, cancelUrl: string): (d: SessionData)
    ensures d.mode == "subscription" <==> Truthy(plan.interval)
    ensures d.mode == "subscription" || d.mode == "payment"
    ensures |d.lineItems| == 1 && d.lineItems[0].quantity == 1
    ensures plan.priceId != "" ==> d.lineItems[0] == PriceRef(plan.priceId, 1)
    ensures plan.priceId == "" ==> d.lineItems[0].PriceData? && d.lineItems[0].unitAmount == plan.amount
    ensures plan.priceId == "" ==> (d.lineItems[0].recurring.Some? <==> Truthy(plan.interval))
    ensures d.metadata == map["company_id" := companyId, "module" := moduleName, "plan_id" := planId]
  {
    var item :=
      if plan.priceId != "" then PriceRef(plan.priceId, 1)
      else PriceData(plan.amount, plan.currency, plan.name,
                     Capitalize(moduleName) + " module - " + planId + " plan",
                     if Truthy(plan.interval) then plan.interval else None, 1);
    var meta := map["company_id" := companyId, "module" := moduleName, "plan_id" := planId];
    SessionData(customer, ["card"], if Truthy(plan.interval) then "subscription" else "payment",
                successUrl, cancelUrl, meta, [item])
  }

  /** `create_checkout_session`: the guards in order, then the session. */
  function CreateCheckoutSession(secretKey: Option<string>, env: PriceIds, companies: seq<Company>,
                                 companyId: string, moduleName: string, planId: string,
                                 customer: string, successUrl: string, cancelUrl: string): (r: CheckoutOutcome)
    ensures r.Session? <==> && Truthy(secretKey) && FindCompany(companies, companyId).Some?
                            && moduleName in ModulePlans(env) && planId in ModulePlans(env)[moduleName]
    ensures r.Session? ==> r.data.customer == customer && r.data.successUrl == successUrl && r.data.cancelUrl == cancelUrl
    ensures r.Session? ==> r.data.metadata == map["company_id" := companyId, "module" := moduleName, "plan_id" := planId]
  {
    var plans := ModulePlans(env);
    if !Truthy(secretKey) then CheckoutError("STRIPE_SECRET_KEY not configured")
    else if FindCompany(companies, companyId).None? then CheckoutError("Company " + companyId + " not found")
    else if moduleName !in plans then CheckoutError("Unknown module: " + moduleName)
    else if planId !in plans[moduleName] then CheckoutError("Unknown plan: " + planId + " for module " + moduleName)
    else
      Session(SessionFor(customer, companyId, moduleName, planId, plans[moduleName][planId], successUrl, cancelUrl))
  }

  /** The four ways a checkout request is refused, each before the next is
      looked at; every plan of the catalogue is a monthly subscription. */
  lemma CheckoutGuardOrder(secretKey: Option<string>, env: PriceIds, companies: seq<Company>,
                           companyId: string, moduleName: string, planId: string,
                           customer: string, successUrl: string, cancelUrl: string)
    ensures var r := CreateCheckoutSession(secretKey, env, companies, companyId, moduleName, planId, customer, successUrl, cancelUrl);
      && (!Truthy(secretKey) ==> r == CheckoutError("STRIPE_SECRET_KEY not configured"))
      && (Truthy(secretKey) && FindCompany(companies, companyId).None? ==>
            r == CheckoutError("Company " + companyId + " not found"))
      && (Truthy(secretKey) && FindCompany(companies, companyId).Some? && moduleName != "hotel" && moduleName != "tour" ==>
            r == CheckoutError("Unknown module: " + moduleName))
      && (Truthy(secretKey) && FindCompany(companies, companyId).Some? && moduleName == "tour" && planId != "basic" ==>
            r == CheckoutError("Unknown plan: " + planId + " for module " + moduleName))
      && (r.Session? ==>
            && r.data.mode == "subscription"
            && r.data.metadata == map["company_id" := companyId, "module" := moduleName, "plan_id" := planId])
  {
    var r := CreateCheckoutSession(secretKey, env, companies, companyId, moduleName, planId, customer, successUrl, cancelUrl);
    if r.Session? {
      var plan := ModulePlans(env)[moduleName][planId];
      assert plan.interval == Some("month");
    }
  }

  // ---------------------------------------------------------------------
  // Webhook events
  // ---------------------------------------------------------------------

  /** The fields of a parsed Stripe event that the handler reads. */
  datatype EventObject = EventObject(
    metaCompanyId: Option<string>,
    metaModule: Option<string>,
    metaPlanId: Option<string>,
    subscription: Option<string>,
    displayPriceId: Option<string>,
    customer: Option<string>,
    id: Option<string>)

  datatype StripeEvent = StripeEvent(eventType: Option<string>, data: EventObject)

  datatype BillingEvent = BillingEvent(companyId: string, eventType: string, payload: StripeEvent)

  datatype WebhookResult = WebhookResult(processed: bool, message: string)

  datatype BillingState = BillingState(companies: seq<Company>, events: seq<BillingEvent>)

  /** The catalogue name of a plan, or the plan id itself when unknown. */
  function PlanName(plans: map<string, map<string, Plan>>, moduleName: string, planId: Option<string>): Option<string> {
    if moduleName in plans && planId.Some? && planId.value in plans[moduleName] then Some(plans[moduleName][planId.value].name)
    else planId
  }

  /** One subscription after the re-labelling: a matching Stripe id gets
      the new status (and, for a cancellation, an end date). */
  function MarkOne(x: Subscription, subId: Option<string>, status: string, endDate: Option<string>): Subscription {
    if x.stripeSubscriptionId == subId then x.(status := status, endDate := if endDate.Some? then endDate else x.endDate) else x
  }

  /** The subscription list with every entry whose Stripe id equals `subId`
      given a new status (and, for a cancellation, an end date). */
  function MarkWhere(subs: seq<Subscription>, subId: Option<string>, status: string, endDate: Option<string>): (r: seq<Subscription>)
    ensures |r| == |subs|
    ensures forall i | 0 <= i < |subs| ::
      r[i] == if subs[i].stripeSubscriptionId == subId
              then subs[i].(status := status, endDate := if endDate.Some? then endDate else subs[i].endDate)
              else subs[i]
  {
    if subs == [] then []
    else [MarkOne(subs[0], subId, status, endDate)] + MarkWhere(subs[1..], subId, status, endDate)
  }

  /** `handle_webhook_event` as a function of the store. */
  function WebhookSpec(s: BillingState, env: PriceIds, e: StripeEvent, now: string): (r: (BillingState, WebhookResult))
    ensures !r.1.processed ==> r.0 == s
    ensures |r.0.companies| == |s.companies|
    ensures forall i | 0 <= i < |s.companies| :: r.0.companies[i].id == s.companies[i].id
    ensures s.events <= r.0.events && |r.0.events| <= |s.events| + 1
  {
    var data := e.data;
    if e.eventType == Some("checkout.session.completed") then
      if !Truthy(data.metaCompanyId) || !Truthy(data.metaModule) then
        (s, WebhookResult(false, "Missing metadata in checkout session"))
      else
        var companyId := data.metaCompanyId.value;
        var moduleName := data.metaModule.value;
        match FindCompany(s.companies, companyId)
        case None => (s, WebhookResult(false, "Company " + companyId + " not found"))
        case Some(k) =>
          var c := s.companies[k];
          var sub := Subscription(moduleName, data.metaPlanId, PlanName(ModulePlans(env), moduleName, data.metaPlanId),
                                  "active", data.subscription, data.displayPriceId, now, None);
          var c1 := c.(modulesEnabled := c.modulesEnabled[moduleName := true], subscriptions := c.subscriptions + [sub]);
          (BillingState(s.companies[k := c1], s.events + [BillingEvent(companyId, e.eventType.value, e)]),
           WebhookResult(true, "Module " + moduleName + " enabled successfully"))
    else if e.eventType == Some("invoice.payment_failed") then
      match FindByCustomer(s.companies, data.customer)
      case None => (s, WebhookResult(false, ""))
      case Some(k) =>
        var c := s.companies[k];
        var c1 := c.(subscriptions := MarkWhere(c.subscriptions, data.subscription, "past_due", None));
        (BillingState(s.companies[k := c1], s.events + [BillingEvent(c.id, e.eventType.value, e)]),
         WebhookResult(true, "Payment failure handled"))
    else if e.eventType == Some("customer.subscription.deleted") then
      match FindByCustomer(s.companies, data.customer)
      case None => (s, WebhookResult(false, ""))
      case Some(k) =>
        var c := s.companies[k];
        var c1 := c.(subscriptions := MarkWhere(c.subscriptions, data.id, "cancelled", Some(now)));
        (s.(companies := s.companies[k := c1]), WebhookResult(true, "Subscription cancelled"))
    else (s, WebhookResult(false, ""))
  }

  /** The companies collection and the billing-event log. */
  class BillingDb {
    var companies: seq<Company>
    var events: seq<BillingEvent>

    function State(): BillingState
      reads this
    {
      BillingState(companies, events)
    }

    constructor(companies: seq<Company>)
      ensures State() == BillingState(companies, [])
    {
      this.companies := companies;
      this.events := [];
    }

    /** The loop over a company's subscriptions that re-labels the matching ones. */
    static method Mark(subs: seq<Subscription>, subId: Option<string>, status: string, endDate: Option<string>)
      returns (r: seq<Subscription>)
      ensures r == MarkWhere(subs, subId, status, endDate)
    {
      r := subs;
      var i := 0;
      while i < |subs|
        invariant 0 <= i <= |subs| && |r| == |subs|
        invariant forall j | 0 <= j < |subs| :: r[j] == if j < i then MarkOne(subs[j], subId, status, endDate) else subs[j]
      {
        if r[i].stripeSubscriptionId == subId {
          r := r[i := r[i].(status := status, endDate := if endDate.Some? then endDate else r[i].endDate)];
        }
        i := i + 1;
      }
      ghost var m := MarkWhere(subs, subId, status, endDate);
      assert forall j | 0 <= j < |subs| :: r[j] == m[j];
    }

    method HandleWebhookEvent(env: PriceIds, e: StripeEvent, now: string) returns (result: WebhookResult)
      modifies this
      ensures (State(), result) == WebhookSpec(old(State()), env, e, now)
    {
      var data := e.data;
      result := WebhookResult(false, "");
      if e.eventType == Some("checkout.session.completed") {
        if !Truthy(data.metaCompanyId) || !Truthy(data.metaModule) {
          result := result.(message := "Missing metadata in checkout session");
          return;
        }
        var companyId := data.metaCompanyId.value;
        var moduleName := data.metaModule.value;
        var found := FindCompany(companies, companyId);
        if found.Some? {
          var c := companies[found.value];
          var modulesEnabled := c.modulesEnabled;
          modulesEnabled := modulesEnabled[moduleName := true];
          var subscriptions := c.subscriptions;
          var sub := Subscription(moduleName, data.metaPlanId, PlanName(ModulePlans(env), moduleName, data.metaPlanId),
                                  "active", data.subscription, data.displayPriceId, now, None);
          subscriptions := subscriptions + [sub];
          companies := companies[found.value := c.(modulesEnabled := modulesEnabled, subscriptions := subscriptions)];
          events := events + [BillingEvent(companyId, e.eventType.value, e)];
          result := WebhookResult(true, "Module " + moduleName + " enabled successfully");
        } else {
          result := result.(message := "Company " + companyId + " not found");
        }
      } else if e.eventType == Some("invoice.payment_failed") {
        var found := FindByCustomer(companies, data.customer);
        if found.Some? {
          var c := companies[found.value];
          var subscriptions := Mark(c.subscriptions, data.subscription, "past_due", None);
          companies := companies[found.value := c.(subscriptions := subscriptions)];
          events := events + [BillingEvent(c.id, e.eventType.value, e)];
          result := WebhookResult(true, "Payment failure handled");
        }
      } else if e.eventType == Some("customer.subscription.deleted") {
        var found := FindByCustomer(companies, data.customer);
        if found.Some? {
          var c := companies[found.value];
          var subscriptions := Mark(c.subscriptions, data.id, "cancelled", Some(now));
          companies := companies[found.value := c.(subscriptions := subscriptions)];
          result := WebhookResult(true, "Subscription cancelled");
        }
      }
    }
  }

  // ---------------------------------------------------------------------
  // Properties of the webhook handler
  // ---------------------------------------------------------------------

  /** A completed checkout without a company or module id, and any event of
      another type, writes nothing and is reported unprocessed. */
  lemma UnhandledEventsWriteNothing(s: BillingState, env: PriceIds, e: StripeEvent, now: string)
    requires e.eventType != Some("invoice.payment_failed") && e.eventType != Some("customer.subscription.deleted")
    requires e.eventType == Some("checkout.session.completed") ==> !Truthy(e.data.metaCompanyId) || !Truthy(e.data.metaModule)
    ensures WebhookSpec(s, env, e, now).0 == s
    ensures !WebhookSpec(s, env, e, now).1.processed
    ensures e.eventType == Some("checkout.session.completed") ==>
      WebhookSpec(s, env, e, now).1.message == "Missing metadata in checkout session"
  {
  }

  /** A completed checkout for a stored company enables that module and
      no other, appends exactly one active subscription named from the
      catalogue (or by its plan id), logs one billing event, and touches no
      other company. */
  lemma CheckoutEnablesModule(s: BillingState, env: PriceIds, e: StripeEvent, now: string)
    requires e.eventType == Some("checkout.session.completed")
    requires Truthy(e.data.metaCompanyId) && Truthy(e.data.metaModule)
    requires FindCompany(s.companies, e.data.metaCompanyId.value).Some?
    ensures var (s1, r) := WebhookSpec(s, env, e, now);
      var k := FindCompany(s.companies, e.data.metaCompanyId.value).value;
      var moduleName := e.data.metaModule.value;
      && r.processed
      && |s1.companies| == |s.companies|
      && (forall j | 0 <= j < |s.companies| && j != k :: s1.companies[j] == s.companies[j])
      && s1.companies[k].modulesEnabled[moduleName]
      && (forall m | m in s.companies[k].modulesEnabled && m != moduleName ::
            m in s1.companies[k].modulesEnabled && s1.companies[k].modulesEnabled[m] == s.companies[k].modulesEnabled[m])
      && s1.companies[k].modulesEnabled.Keys == s.companies[k].modulesEnabled.Keys + {moduleName}
      && |s1.companies[k].subscriptions| == |s.companies[k].subscriptions| + 1
      && s1.companies[k].subscriptions[..|s.companies[k].subscriptions|] == s.companies[k].subscriptions
      && s1.companies[k].subscriptions[|s.companies[k].subscriptions|].status == "active"
      && s1.companies[k].subscriptions[|s.companies[k].subscriptions|].moduleName == moduleName
      && (moduleName == "hotel" && e.data.metaPlanId == Some("pro") ==>
            s1.companies[k].subscriptions[|s.companies[k].subscriptions|].planName == Some("Hotel Pro"))
      && (moduleName !in ModulePlans(env) ==>
            s1.companies[k].subscriptions[|s.companies[k].subscriptions|].planName == e.data.metaPlanId)
      && |s1.events| == |s.events| + 1
  {
  }

  /** Replacing a company by one with the same id leaves every lookup by id as it was. */
  lemma {:induction false} FindCompanyAfterUpdate(cs: seq<Company>, k: nat, c: Company, id: string)
    requires k < |cs| && c.id == cs[k].id
    ensures FindCompany(cs[k := c], id) == FindCompany(cs, id)
  {
    if k > 0 {
      assert cs[k := c][1..] == cs[1..][k - 1 := c];
      FindCompanyAfterUpdate(cs[1..], k - 1, c, id);
    }
  }

  /** Replaying the same completed checkout adds a second subscription entry:
      nothing deduplicates them. */
  lemma ReplayedCheckoutDuplicates(s: BillingState, env: PriceIds, e: StripeEvent, now: string)
    requires e.eventType == Some("checkout.session.completed")
    requires Truthy(e.data.metaCompanyId) && Truthy(e.data.metaModule)
    requires FindCompany(s.companies, e.data.metaCompanyId.value).Some?
    ensures var s2 := WebhookSpec(WebhookSpec(s, env, e, now).0, env, e, now).0;
      var k := FindCompany(s.companies, e.data.metaCompanyId.value).value;
      var n := |s.companies[k].subscriptions|;
      && |s2.companies[k].subscriptions| == n + 2
      && s2.companies[k].subscriptions[n] == s2.companies[k].subscriptions[n + 1]
      && |s2.events| == |s.events| + 2
  {
    var id := e.data.metaCompanyId.value;
    var k := FindCompany(s.companies, id).value;
    var s1 := WebhookSpec(s, env, e, now).0;
    FindCompanyAfterUpdate(s.companies, k, s1.companies[k], id);
  }

  /** A failed invoice marks `past_due` exactly the subscriptions of the
      customer's company whose Stripe id is the invoice's subscription; a
      cancellation marks the matching ones `cancelled` with an end date;
      neither touches the enabled modules or another company. */
  lemma SubscriptionEventsRelabelMatching(s: BillingState, env: PriceIds, e: StripeEvent, now: string)
    requires e.eventType == Some("invoice.payment_failed") || e.eventType == Some("customer.subscription.deleted")
    requires FindByCustomer(s.companies, e.data.customer).Some?
    ensures var (s1, r) := WebhookSpec(s, env, e, now);
      var k := FindByCustomer(s.companies, e.data.customer).value;
      var subs := s.companies[k].subscriptions;
      var subs1 := s1.companies[k].subscriptions;
      var cancel := e.eventType == Some("customer.subscription.deleted");
      var target := if cancel then e.data.id else e.data.subscription;
      && r.processed
      && |s1.companies| == |s.companies|
      && (forall j | 0 <= j < |s.companies| && j != k :: s1.companies[j] == s.companies[j])
      && s1.companies[k].modulesEnabled == s.companies[k].modulesEnabled
      && |subs1| == |subs|
      && (forall i | 0 <= i < |subs| ::
            && (subs[i].stripeSubscriptionId == target ==>
                  subs1[i].status == (if cancel then "cancelled" else "past_due")
                  && (cancel ==> subs1[i].endDate == Some(now)))
            && (subs[i].stripeSubscriptionId != target ==> subs1[i] == subs[i]))
      && (cancel ==> s1.events == s.events)
      && (!cancel ==> |s1.events| == |s.events| + 1)
  {
  }

  /** An invoice or cancellation for a customer no stored company has is
      reported unprocessed and writes nothing. */
  lemma UnknownCustomerIsIgnored(s: BillingState, env: PriceIds, e: StripeEvent, now: string)
    requires e.eventType == Some("invoice.payment_failed") || e.eventType == Some("customer.subscription.deleted")
    requires forall k | 0 <= k < |s.companies| :: s.companies[k].stripeCustomerId != e.data.customer
    ensures WebhookSpec(s, env, e, now) == (s, WebhookResult(false, ""))
  {
  }
}
