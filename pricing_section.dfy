/** The pricing cards of the home page (src/components/home/PricingSection.tsx): the three
    plans, what their button does, and the button's label. */
module PricingSection {
  import opened JsPrelude
  import opened StripeConfig

  datatype Feature = Feature(text: string, included: bool)

  datatype PricingPlan = PricingPlan(name: string, price: string, period: string, features: seq<Feature>,
                                     highlighted: bool)

  /** `pricingPlans`. */
  const PricingPlans: seq<PricingPlan> := [
    PricingPlan("Free", "$0", "forever",
      [Feature("1 Template", true), Feature("Basic Organization", true), Feature("Community Support", true),
       Feature("AI Analysis", false), Feature("Unlimited Templates", false)], false),
    PricingPlan("Basic", "$9.99", "per month",
      [Feature("Unlimited Templates", true), Feature("Cloud Sync", true), Feature("Email Support", true),
       Feature("Export to PDF", true), Feature("AI Analysis", false)], false),
    PricingPlan("Pro", "$20", "per month",
      [Feature("Unlimited Templates", true), Feature("AI Analysis & Summaries", true), Feature("Advanced Analytics", true),
       Feature("Priority Support", true), Feature("Export Tools", true)], true)]

  /** What a click on a plan's button does. The checkout's success and cancel addresses are
      built from the page's origin. */
  datatype Action =
    | Navigate(route: string)
    | Checkout(priceId: string, mode: Mode, successUrl: string, cancelUrl: string)
    | NoAction

  /** `stripeProducts.find(p => p.name === planName)`: an exact, case-sensitive match. */
  function ProductNamed(planName: string): (r: Option<StripeProduct>)
    ensures r.None? <==> forall p :: p in StripeProducts ==> p.name != planName
    ensures r.Some? ==> r.value in StripeProducts && r.value.name == planName
  {
    Find(StripeProducts, (p: StripeProduct) => p.name == planName)
  }

  /** `handleGetStarted`. */
  function HandleGetStarted(signedIn: bool, planName: string, origin: string): (a: Action)
    ensures !signedIn ==> a == Navigate("/signup")
    ensures signedIn && planName == "Free" ==> a == Navigate("/dashboard")
    ensures signedIn && planName != "Free" && ProductNamed(planName).None? ==> a == NoAction
    ensures signedIn && planName != "Free" && ProductNamed(planName).Some? ==>
      a == Checkout(ProductNamed(planName).value.priceId, ProductNamed(planName).value.mode,
                    origin + "/success", origin + "/#pricing")
  {
    if !signedIn then Navigate("/signup")
    else if planName == "Free" then Navigate("/dashboard")
    else
      var product := ProductNamed(planName);
      if product.Some? then Checkout(product.value.priceId, product.value.mode, origin + "/success", origin + "/#pricing")
      else NoAction
  }

  /** Checkout starts only for a signed-in user on a plan whose exact name is in the catalogue,
      with that product's price id; a visitor never reaches it. */
  lemma CheckoutOnlyForCatalogueNames(signedIn: bool, planName: string, origin: string)
    ensures HandleGetStarted(signedIn, planName, origin).Checkout? <==>
      signedIn && exists p :: p in StripeProducts && p.name == planName
    ensures HandleGetStarted(signedIn, planName, origin).Checkout? ==>
      exists p :: p in StripeProducts && p.name == planName &&
        HandleGetStarted(signedIn, planName, origin).priceId == p.priceId
  {
    CatalogueFacts();
  }

  /** Each card's button: Free goes to the dashboard, Basic and Pro start checkout with their
      catalogue price; a lowercase name would start nothing, since the match is exact. */
  lemma PlanButtons(origin: string)
    ensures HandleGetStarted(true, PricingPlans[0].name, origin) == Navigate("/dashboard")
    ensures HandleGetStarted(true, PricingPlans[1].name, origin) ==
      Checkout(Basic.priceId, Subscription, origin + "/success", origin + "/#pricing")
    ensures HandleGetStarted(true, PricingPlans[2].name, origin) ==
      Checkout(Pro.priceId, Subscription, origin + "/success", origin + "/#pricing")
    ensures HandleGetStarted(true, "pro", origin) == NoAction
  {
    CatalogueFacts();
    assert "Basic" != "Free" && "Pro" != "Free" && "Pro" != "Basic" && "pro" != "Basic" && "pro" != "Pro";
  }

  /** The button's label. */
  function ButtonLabel(loading: bool, signedIn: bool, planName: string): (s: string)
    ensures loading ==> s == "Processing..."
    ensures !loading && !signedIn ==> s == "Get Started"
    ensures !loading && signedIn && planName == "Free" ==> s == "Go to Dashboard"
    ensures !loading && signedIn && planName != "Free" ==> s == "Upgrade to " + planName
  {
    if loading then "Processing..."
    else if !signedIn then "Get Started"
    else if planName == "Free" then "Go to Dashboard"
    else "Upgrade to " + planName
  }

  /** The label says where the click leads: a label naming an upgrade belongs to a button that
      does not navigate. */
  lemma LabelAgreesWithAction(signedIn: bool, planName: string, origin: string)
    ensures ButtonLabel(false, signedIn, planName) == "Get Started" <==>
      HandleGetStarted(signedIn, planName, origin) == Navigate("/signup")
    ensures ButtonLabel(false, signedIn, planName) == "Go to Dashboard" <==>
      HandleGetStarted(signedIn, planName, origin) == Navigate("/dashboard")
  {
    if signedIn && planName != "Free" {
      var s := ButtonLabel(false, signedIn, planName);
      assert s[..11] == "Upgrade to ";
      assert s != "Get Started" && s != "Go to Dashboard" by {
        assert "Get Started"[..11] != "Upgrade to " by { assert "Get Started"[0] == 'G'; }
        assert |"Go to Dashboard"| == 15;
        if |s| == 15 { assert s[0] == 'U'; }
      }
    }
  }

  /** Three plans, named Free, Basic and Pro, and only Pro highlighted. */
  lemma PlansFacts()
    ensures |PricingPlans| == 3
    ensures PricingPlans[0].name == "Free" && PricingPlans[1].name == "Basic" && PricingPlans[2].name == "Pro"
    ensures forall i :: 0 <= i < |PricingPlans| ==> (PricingPlans[i].highlighted <==> i == 2)
    ensures forall i :: 0 <= i < |PricingPlans| ==> |PricingPlans[i].features| == 5
  {
  }
}
