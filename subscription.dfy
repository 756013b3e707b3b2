/** The subscription hook (src/hooks/useSubscription.ts): the plan read from the billing
    record, the limits each plan grants, and the gate on creating another template. */
module Subscription {
  import opened JsPrelude
  import opened StripeConfig

  /** A template allowance: a finite number, or JavaScript's `Infinity`. */
  datatype Limit = Finite(n: nat) | Unlimited

  /** `used < max` where max may be `Infinity`. */
  predicate Below(used: nat, max: Limit) {
    match max
    case Finite(n) => used < n
    case Unlimited => true
  }

  datatype SubscriptionState = SubscriptionState(plan: string, templatesUsed: nat, maxTemplates: Limit,
    hasAIAccess: bool, stripeStatus: Option<string>, currentPeriodEnd: Option<int>)

  /** The row of `stripe_user_subscriptions` the hook reads, as far as it reads it. */
  datatype StripeRecord = StripeRecord(subscriptionStatus: Option<string>, priceId: Option<string>,
                                       currentPeriodEnd: Option<int>)

  /** An error the database returns. */
  datatype DbError = DbError(code: string, message: string)

  /** The state before any fetch: free, nothing used, one template, no AI. */
  const Initial := SubscriptionState("free", 0, Finite(1), false, None, None)

  /** The plan, status and period end the if-statement of `fetchUserSubscription` settles on. */
  function PlanOf(stripeData: Option<StripeRecord>): (r: (string, Option<string>, Option<int>)) {
    if stripeData.Some? && stripeData.value.subscriptionStatus == Some("active")
       && stripeData.value.priceId.Some? && stripeData.value.priceId.value != ""
       && GetProductByPriceId(stripeData.value.priceId.value).Some?
    then (ToLower(GetProductByPriceId(stripeData.value.priceId.value).value.name), stripeData.value.subscriptionStatus,
          stripeData.value.currentPeriodEnd)
    else ("free", None, None)
  }

  /** The switch on the plan: (maximum templates, AI access). */
  function LimitsOf(plan: string): (l: (Limit, bool)) {
    if plan == "basic" then (Finite(10), false)
    else if plan == "pro" then (Unlimited, true)
    else (Finite(1), false)
  }

  /** The state `fetchUserSubscription` stores after both queries succeed. */
  function SubscriptionOf(stripeData: Option<StripeRecord>, count: Option<nat>): SubscriptionState {
    var (plan, status, periodEnd) := PlanOf(stripeData);
    var (maxTemplates, ai) := LimitsOf(plan);
    SubscriptionState(plan, if count.Some? then count.value else 0, maxTemplates, ai, status, periodEnd)
  }

  /** `canCreateTemplate`. */
  predicate CanCreateTemplate(s: SubscriptionState) {
    Below(s.templatesUsed, s.maxTemplates)
  }

  /** The plan leaves "free" exactly when the record is active, has a price id and the
      catalogue knows that price; the plan is then the product's lowercased name, which is
      "basic" or "pro". */
  lemma PlanRule(stripeData: Option<StripeRecord>)
    ensures PlanOf(stripeData).0 != "free" <==>
      stripeData.Some? && stripeData.value.subscriptionStatus == Some("active") &&
      stripeData.value.priceId.Some? && stripeData.value.priceId.value != "" &&
      GetProductByPriceId(stripeData.value.priceId.value).Some?
    ensures PlanOf(stripeData).0 != "free" ==>
      PlanOf(stripeData).0 == ToLower(GetProductByPriceId(stripeData.value.priceId.value).value.name)
    ensures PlanOf(stripeData).0 in {"free", "basic", "pro"}
    ensures PlanOf(stripeData).0 == "free" ==> PlanOf(stripeData).1 == None && PlanOf(stripeData).2 == None
  {
    if stripeData.Some? && stripeData.value.priceId.Some? {
      var found := GetProductByPriceId(stripeData.value.priceId.value);
      if found.Some? {
        FindByPriceIdFirst(StripeProducts, stripeData.value.priceId.value);
        LowercaseNames(found.value);
      }
    }
  }

  lemma LowercaseNames(p: StripeProduct)
    requires p in StripeProducts
    ensures ToLower(p.name) == "basic" || ToLower(p.name) == "pro"
  {
    assert ToLower("Basic") == "basic";
    assert ToLower("Pro") == "pro";
  }

  /** The limits table: basic allows 10 templates without AI, pro any number with AI, and
      every other plan one template without AI. */
  lemma LimitsTable(plan: string)
    ensures plan == "basic" ==> LimitsOf(plan) == (Finite(10), false)
    ensures plan == "pro" ==> LimitsOf(plan) == (Unlimited, true)
    ensures plan != "basic" && plan != "pro" ==> LimitsOf(plan) == (Finite(1), false)
    ensures LimitsOf(plan).1 <==> plan == "pro"
    ensures LimitsOf(plan).0 == Unlimited <==> plan == "pro"
  {
  }

  /** What a successful fetch stores: the count or 0, AI access exactly on pro, and on pro the
      gate is always open. */
  lemma SubscriptionFacts(stripeData: Option<StripeRecord>, count: Option<nat>)
    ensures var s := SubscriptionOf(stripeData, count);
      s.plan == PlanOf(stripeData).0 &&
      s.templatesUsed == (if count.Some? then count.value else 0) &&
      (s.hasAIAccess <==> s.plan == "pro") &&
      (s.plan == "pro" ==> CanCreateTemplate(s)) &&
      (s.plan == "basic" ==> (CanCreateTemplate(s) <==> s.templatesUsed < 10)) &&
      (s.plan == "free" ==> (CanCreateTemplate(s) <==> s.templatesUsed == 0))
  {
    PlanRule(stripeData);
    LimitsTable(PlanOf(stripeData).0);
  }

  /** An inactive record, or one without a price id, leaves the user on the free plan. */
  lemma InactiveIsFree(stripeData: Option<StripeRecord>, count: Option<nat>)
    requires stripeData.None? || stripeData.value.subscriptionStatus != Some("active") ||
             stripeData.value.priceId.None? || stripeData.value.priceId.value == ""
    ensures SubscriptionOf(stripeData, count).plan == "free"
    ensures SubscriptionOf(stripeData, count).maxTemplates == Finite(1)
    ensures !SubscriptionOf(stripeData, count).hasAIAccess
  {
  }

  /** An active record paying the Pro price gives unlimited templates and AI access. */
  lemma ProPriceUnlocksAI(periodEnd: Option<int>, count: Option<nat>)
    ensures var s := SubscriptionOf(Some(StripeRecord(Some("active"), Some(Pro.priceId), periodEnd)), count);
      s.plan == "pro" && s.maxTemplates == Unlimited && s.hasAIAccess && CanCreateTemplate(s) &&
      s.stripeStatus == Some("active") && s.currentPeriodEnd == periodEnd
  {
    CatalogueFacts();
    assert GetProductByPriceId(Pro.priceId) == Some(Pro);
    LowercaseNames(Pro);
    assert ToLower("Pro") == "pro";
  }

  /** The hook's state. */
  class SubscriptionHook {
    var subscription: SubscriptionState
    var loading: bool
    var error: Option<string>

    constructor ()
      ensures subscription == Initial && loading && error == None
    {
      subscription := Initial;
      loading := true;
      error := None;
    }

    /** `fetchUserSubscription`. `stripeData`/`stripeError` and `count`/`countError` are what the
        two queries return. */
    method FetchUserSubscription(signedIn: bool, clientReady: bool,
                                 stripeData: Option<StripeRecord>, stripeError: Option<DbError>,
                                 count: Option<nat>, countError: Option<DbError>)
      modifies this
      ensures !loading
      ensures !signedIn || !clientReady ==> subscription == old(subscription) && error == old(error)
      ensures signedIn && clientReady && stripeError.Some? && stripeError.value.code != "PGRST116" ==>
        subscription == old(subscription) && error == Some(OrString(stripeError.value.message, "Failed to load subscription data"))
      ensures signedIn && clientReady && !(stripeError.Some? && stripeError.value.code != "PGRST116") && countError.Some? ==>
        subscription == old(subscription) && error == Some(OrString(countError.value.message, "Failed to load subscription data"))
      ensures signedIn && clientReady && !(stripeError.Some? && stripeError.value.code != "PGRST116") && countError.None? ==>
        subscription == SubscriptionOf(stripeData, count) && error == None
    {
      if !signedIn || !clientReady {
        loading := false;
        return;
      }
      error := None;
      if stripeError.Some? && stripeError.value.code != "PGRST116" {
        error := Some(OrString(stripeError.value.message, "Failed to load subscription data"));
        loading := false;
        return;
      }
      if countError.Some? {
        error := Some(OrString(countError.value.message, "Failed to load subscription data"));
        loading := false;
        return;
      }
      var plan := "free";
      var stripeStatus: Option<string> := None;
      var currentPeriodEnd: Option<int> := None;
      if stripeData.Some? && stripeData.value.subscriptionStatus == Some("active")
         && stripeData.value.priceId.Some? && stripeData.value.priceId.value != "" {
        var product := GetProductByPriceId(stripeData.value.priceId.value);
        if product.Some? {
          plan := ToLower(product.value.name);
          stripeStatus := stripeData.value.subscriptionStatus;
          currentPeriodEnd := stripeData.value.currentPeriodEnd;
        }
      }
      var templatesUsed := if count.Some? then count.value else 0;
      var maxTemplates := Finite(1);
      var hasAIAccess := false;
      if plan == "basic" {
        maxTemplates := Finite(10);
        hasAIAccess := false;
      } else if plan == "pro" {
        maxTemplates := Unlimited;
        hasAIAccess := true;
      } else {
        maxTemplates := Finite(1);
        hasAIAccess := false;
      }
      subscription := SubscriptionState(plan, templatesUsed, maxTemplates, hasAIAccess, stripeStatus, currentPeriodEnd);
      loading := false;
    }

    /** `canCreateTemplate` on the current state. */
    predicate CanCreate()
      reads this
    {
      CanCreateTemplate(subscription)
    }
  }
}
