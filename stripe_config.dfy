/** The product catalogue of the billing integration (src/stripe-config.ts) and its two
    lookups, both of which return the first catalogue entry that matches. */
module StripeConfig {
  import opened JsPrelude

  datatype Mode = Subscription | Payment

  datatype StripeProduct = StripeProduct(id: string, priceId: string, name: string, description: string,
                                         price: real, currency: string, mode: Mode)

  const Basic := StripeProduct("prod_T9WTxtAauVYZAx", "price_1SDDR0EivTQMi6mCVG9QAEJz", "Basic",
    "Unlimited templates with cloud sync and email support", 9.99, "usd", Subscription)

  const Pro := StripeProduct("prod_T9WU2OZsRSnslE", "price_1SDDRNEivTQMi6mCSl1iIvMq", "Pro",
    "Everything in Basic plus AI analysis and advanced analytics", 20.0, "usd", Subscription)

  /** `stripeProducts`. */
  const StripeProducts: seq<StripeProduct> := [Basic, Pro]

  /** `stripeProducts.find(product => product.priceId === priceId)`, over any catalogue. */
  function FindByPriceId(products: seq<StripeProduct>, priceId: string): (r: Option<StripeProduct>) {
    Find(products, (p: StripeProduct) => p.priceId == priceId)
  }

  /** `stripeProducts.find(product => product.name.toLowerCase() === name.toLowerCase())`. */
  function FindByName(products: seq<StripeProduct>, name: string): (r: Option<StripeProduct>) {
    Find(products, (p: StripeProduct) => ToLower(p.name) == ToLower(name))
  }

  /** `getProductByPriceId`. */
  function GetProductByPriceId(priceId: string): Option<StripeProduct> {
    FindByPriceId(StripeProducts, priceId)
  }

  /** `getProductByName`. */
  function GetProductByName(name: string): Option<StripeProduct> {
    FindByName(StripeProducts, name)
  }

  /** The price-id lookup in any catalogue: nothing exactly when no product has that price id,
      and otherwise the first product, in catalogue order, that has it. */
  lemma FindByPriceIdFirst(products: seq<StripeProduct>, priceId: string)
    ensures FindByPriceId(products, priceId).None? <==> forall p :: p in products ==> p.priceId != priceId
    ensures FindByPriceId(products, priceId).Some? ==>
      exists i :: 0 <= i < |products| && products[i] == FindByPriceId(products, priceId).value &&
        products[i].priceId == priceId && forall j :: 0 <= j < i ==> products[j].priceId != priceId
  {
  }

  /** The name lookup in any catalogue: the first product whose name equals the query once
      both are lowercased. */
  lemma FindByNameFirst(products: seq<StripeProduct>, name: string)
    ensures FindByName(products, name).None? <==> forall p :: p in products ==> ToLower(p.name) != ToLower(name)
    ensures FindByName(products, name).Some? ==>
      exists i :: 0 <= i < |products| && products[i] == FindByName(products, name).value &&
        ToLower(products[i].name) == ToLower(name) && forall j :: 0 <= j < i ==> ToLower(products[j].name) != ToLower(name)
  {
  }

  /** The name lookup ignores case: the query and its lowercase form find the same product. */
  lemma FindByNameIgnoresCase(products: seq<StripeProduct>, name: string)
    ensures FindByName(products, name) == FindByName(products, ToLower(name))
  {
    ToLowerIdempotent(name);
  }

  /** The catalogue holds two subscription products in US dollars, Basic at 9.99 and Pro at 20,
      with distinct price ids and names that differ even ignoring case. */
  lemma CatalogueFacts()
    ensures |StripeProducts| == 2 && StripeProducts[0].name == "Basic" && StripeProducts[1].name == "Pro"
    ensures StripeProducts[0].price == 9.99 && StripeProducts[1].price == 20.0
    ensures forall p :: p in StripeProducts ==> p.mode == Subscription && p.currency == "usd"
    ensures StripeProducts[0].priceId != StripeProducts[1].priceId
    ensures ToLower(StripeProducts[0].name) != ToLower(StripeProducts[1].name)
  {
    assert ToLower("Basic")[0] == 'b' && ToLower("Pro")[0] == 'p';
  }

  /** Every catalogue product is found again by its own price id and by its own name. */
  lemma LookupsRoundTrip(p: StripeProduct)
    requires p in StripeProducts
    ensures GetProductByPriceId(p.priceId) == Some(p)
    ensures GetProductByName(p.name) == Some(p)
  {
    CatalogueFacts();
  }

  /** Lowercase plan names, as the subscription record stores them, find their product. */
  lemma LowercaseNamesFound()
    ensures GetProductByName("basic") == Some(Basic)
    ensures GetProductByName("pro") == Some(Pro)
  {
    assert ToLower("basic") == ToLower("Basic");
    assert ToLower("pro") == ToLower("Pro");
    CatalogueFacts();
    FindByNameFirst(StripeProducts, "pro");
  }
}
