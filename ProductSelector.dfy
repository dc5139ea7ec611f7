/**
 * The legacy single-selection product selector
 * (src/components/store/ProductSelector.tsx): a format, and for each format
 * a variant that is unset until the customer picks one. The selected SKU and
 * the legacy price identifier are derived from these.
 */
module ProductSelector {

  import opened Wrappers
  import opened Json
  import opened Catalog
  import CheckoutRoute
  import Shop

  datatype JarVariant = JarSample | JarStudio | JarRefill
  datatype BottleVariant = BottleSample | BottleStandard | BottleStudio

  datatype Sku = Sku(name: string, description: string, priceCad: int, recommended: bool)

  /** The catalogue tier a jar variant names. */
  function JarTier(v: JarVariant): TierId {
    match v
    case JarSample => Sample
    case JarStudio => Studio
    case JarRefill => Refill
  }

  /** The catalogue tier a bottle variant names. */
  function BottleTier(v: BottleVariant): TierId {
    match v
    case BottleSample => Sample
    case BottleStandard => Standard
    case BottleStudio => Studio
  }

  /** JAR_SKUS */
  function JarSku(v: JarVariant): Sku {
    match v
    case JarSample => Sku("Sample Jar", "Pure structural control", 18, false)
    case JarStudio => Sku("Studio Jar", "Balanced coverage for regular services", 58, false)
    case JarRefill => Sku("Refill Jar", "Designed for high-volume studio use", 158, true)
  }

  /** BOTTLE_SKUS */
  function BottleSku(v: BottleVariant): Sku {
    match v
    case BottleSample => Sku("Sample Bottle", "Precision application · Try format", 14, false)
    case BottleStandard => Sku("Standard Bottle", "Daily studio workflow", 28, false)
    case BottleStudio => Sku("Studio Bottle", "Designed for high-use professional services", 44, true)
  }

  /** `getJarPriceId`: the legacy `jar_<variant>` identifier. */
  function GetJarPriceId(v: JarVariant): (id: string)
    ensures PriceId(LegacyKey(Jar, JarTier(v))) == Some(id)
    ensures id == Prefix + "jar_" + TierName(JarTier(v))
  {
    var k := LegacyKey(Jar, JarTier(v));
    CatalogKeys(k);
    PriceIdIsPrefixedKey(k);
    if v == JarSample then PriceId(LegacyKey(Jar, Sample)).value
    else if v == JarStudio then PriceId(LegacyKey(Jar, Studio)).value
    else PriceId(LegacyKey(Jar, Refill)).value
  }

  /** `getBottlePriceId`: the legacy `bottle_<variant>` identifier. */
  function GetBottlePriceId(v: BottleVariant): (id: string)
    ensures PriceId(LegacyKey(Bottle, BottleTier(v))) == Some(id)
    ensures id == Prefix + "bottle_" + TierName(BottleTier(v))
  {
    var k := LegacyKey(Bottle, BottleTier(v));
    CatalogKeys(k);
    PriceIdIsPrefixedKey(k);
    if v == BottleSample then PriceId(LegacyKey(Bottle, Sample)).value
    else if v == BottleStandard then PriceId(LegacyKey(Bottle, Standard)).value
    else PriceId(LegacyKey(Bottle, Studio)).value
  }

  /** Different variants are charged under different identifiers, across both formats. */
  lemma LegacyPriceIdsDistinct(j1: JarVariant, j2: JarVariant, b1: BottleVariant, b2: BottleVariant)
    ensures GetJarPriceId(j1) == GetJarPriceId(j2) <==> j1 == j2
    ensures GetBottlePriceId(b1) == GetBottlePriceId(b2) <==> b1 == b2
    ensures GetJarPriceId(j1) != GetBottlePriceId(b1)
  {
    PriceIdsDistinct(LegacyKey(Jar, JarTier(j1)), LegacyKey(Jar, JarTier(j2)));
    PriceIdsDistinct(LegacyKey(Bottle, BottleTier(b1)), LegacyKey(Bottle, BottleTier(b2)));
    PriceIdsDistinct(LegacyKey(Jar, JarTier(j1)), LegacyKey(Bottle, BottleTier(b1)));
  }

  /** A shop tier describes the same offer as a selector SKU: id, name, price and blurb. */
  predicate SameOffer(t: Shop.Tier, tier: TierId, sku: Sku) {
    t.id == TierName(tier) && t.tierLabel == sku.name && t.price == sku.priceCad && t.sub == sku.description
  }

  /** The jar SKU table agrees with the shop page's jar tiers, entry by entry. */
  lemma JarSkusMatchShopTiers(j: JarVariant)
    ensures exists t | t in Shop.Tiers(Jar) :: SameOffer(t, JarTier(j), JarSku(j))
  {
    var jt := Shop.Tiers(Jar);
    var i := match j case JarSample => 0 case JarStudio => 1 case JarRefill => 2;
    assert SameOffer(jt[i], JarTier(j), JarSku(j));
    assert jt[i] in jt;
  }

  /** The bottle SKU table agrees with the shop page's bottle tiers, entry by entry. */
  lemma BottleSkusMatchShopTiers(b: BottleVariant)
    ensures exists t | t in Shop.Tiers(Bottle) :: SameOffer(t, BottleTier(b), BottleSku(b))
  {
    var bt := Shop.Tiers(Bottle);
    var k := match b case BottleSample => 0 case BottleStandard => 1 case BottleStudio => 2;
    assert SameOffer(bt[k], BottleTier(b), BottleSku(b));
    assert bt[k] in bt;
  }

  /**
   * The two pages recommend the same jar but different bottles: the shop
   * page recommends the standard bottle, the selector the studio bottle.
   */
  lemma RecommendationsDiffer(b: BottleVariant, t: Shop.Tier)
    requires t in Shop.Tiers(Bottle) && t.id == TierName(BottleTier(b))
    ensures t.recommended <==> b == BottleStandard
    ensures BottleSku(b).recommended <==> b == BottleStudio
  {
  }

  /** The selected SKU: the current format's variant looked up in its table, if set. */
  function SelectedSkuOf(format: Format, jar: Option<JarVariant>, bottle: Option<BottleVariant>): (r: Option<Sku>)
    ensures r.None? <==> (if format == Jar then jar.None? else bottle.None?)
    ensures format == Jar && jar.Some? ==> r == Some(JarSku(jar.value))
    ensures format == Bottle && bottle.Some? ==> r == Some(BottleSku(bottle.value))
  {
    match format
    case Jar => if jar.Some? then Some(JarSku(jar.value)) else None
    case Bottle => if bottle.Some? then Some(BottleSku(bottle.value)) else None
  }

  /** What `handleCheckout` hands to the single-item checkout client. */
  datatype CheckoutCall = CheckoutCall(priceId: string, shade: string)

  /**
   * The call made on checkout, if any: none without a selection; otherwise
   * the current format's legacy identifier and the SKU's name.
   */
  function CheckoutCallOf(format: Format, jar: Option<JarVariant>, bottle: Option<BottleVariant>): (r: Option<CheckoutCall>)
    ensures r.None? <==> SelectedSkuOf(format, jar, bottle).None?
    ensures r.Some? ==> r.value.shade == SelectedSkuOf(format, jar, bottle).value.name
    ensures r.Some? && format == Jar ==> PriceId(LegacyKey(Jar, JarTier(jar.value))) == Some(r.value.priceId)
    ensures r.Some? && format == Bottle ==> PriceId(LegacyKey(Bottle, BottleTier(bottle.value))) == Some(r.value.priceId)
  {
    match SelectedSkuOf(format, jar, bottle)
    case None => None
    case Some(sku) =>
      var priceId := if format == Jar then GetJarPriceId(jar.value) else GetBottlePriceId(bottle.value);
      Some(CheckoutCall(priceId, sku.name))
  }

  /** `sku.recommended && !isSelected` */
  function ShowRecommended(sku: Sku, isSelected: bool): bool {
    sku.recommended && !isSelected
  }

  /**
   * The badge marks exactly the refill jar and the studio bottle, and only
   * while that variant is not the one selected.
   */
  lemma RecommendedBadges(v: JarVariant, w: BottleVariant, jar: Option<JarVariant>, bottle: Option<BottleVariant>)
    ensures ShowRecommended(JarSku(v), jar == Some(v)) <==> v == JarRefill && jar != Some(JarRefill)
    ensures ShowRecommended(BottleSku(w), bottle == Some(w)) <==> w == BottleStudio && bottle != Some(BottleStudio)
  {
  }

  /**
   * The request body of the single-item checkout client
   * (src/lib/goToCheckout.ts): `{ priceId, quantity: 1, shade }`.
   */
  function CheckoutBody(call: CheckoutCall): (body: JsonValue)
    ensures body.JObject? && body.fields.Keys == {"priceId", "quantity", "shade"}
  {
    JObject(map["priceId" := JString(call.priceId), "quantity" := JNumber(1), "shade" := JString(call.shade)])
  }

  /**
   * The selector's request carries no `variant`, so the checkout route
   * answers it with 400 "Invalid variant" whatever is selected.
   */
  lemma SelectorCheckoutMeetsInvalidVariant(call: CheckoutCall, origin: string,
                                            provider: CheckoutRoute.SessionRequest -> CheckoutRoute.ProviderResult)
    ensures CheckoutRoute.Post(Some(CheckoutBody(call)), origin, provider)
         == CheckoutRoute.HttpResponse(400, CheckoutRoute.ErrorBody("Invalid variant"))
  {
    assert Property(CheckoutBody(call), "variant") == None;
  }

  class Selector {
    var format: Format
    var jarVariant: Option<JarVariant>
    var bottleVariant: Option<BottleVariant>
    var error: Option<string>

    /** Nothing is selected at first. */
    constructor ()
      ensures format == Jar && jarVariant == None && bottleVariant == None && error == None
      ensures SelectedSku() == None
    {
      format := Jar;
      jarVariant := None;
      bottleVariant := None;
      error := None;
    }

    /** `selectedSku` */
    function SelectedSku(): Option<Sku>
      reads this
    {
      SelectedSkuOf(format, jarVariant, bottleVariant)
    }

    /** Switching the format keeps both stored variants. */
    method SetFormat(f: Format)
      modifies this
      ensures format == f
      ensures jarVariant == old(jarVariant) && bottleVariant == old(bottleVariant) && error == old(error)
    {
      format := f;
    }

    method SelectJar(v: JarVariant)
      modifies this
      ensures jarVariant == Some(v)
      ensures format == old(format) && bottleVariant == old(bottleVariant) && error == old(error)
    {
      jarVariant := Some(v);
    }

    method SelectBottle(v: BottleVariant)
      modifies this
      ensures bottleVariant == Some(v)
      ensures format == old(format) && jarVariant == old(jarVariant) && error == old(error)
    {
      bottleVariant := Some(v);
    }

    /**
     * `handleCheckout`: without a selected SKU nothing happens; otherwise
     * the error is cleared and the call is made. `checkout` stands for the
     * client, giving the message it throws, or None when it navigates.
     */
    method HandleCheckout(checkout: CheckoutCall -> Option<string>) returns (call: Option<CheckoutCall>)
      modifies this
      ensures call == CheckoutCallOf(format, jarVariant, bottleVariant)
      ensures call.None? ==> error == old(error)
      ensures call.Some? ==> error == checkout(call.value)
      ensures format == old(format) && jarVariant == old(jarVariant) && bottleVariant == old(bottleVariant)
    {
      if SelectedSku().None? {
        return None;
      }
      error := None;
      var priceId := if format == Jar then GetJarPriceId(jarVariant.value) else GetBottlePriceId(bottleVariant.value);
      call := Some(CheckoutCall(priceId, SelectedSku().value.name));
      error := checkout(call.value);
    }
  }
}
