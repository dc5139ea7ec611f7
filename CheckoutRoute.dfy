/**
 * The checkout endpoint (src/app/api/checkout/route.ts).
 *
 * `POST` reads `variant` and `pack` from the JSON body, checks both against
 * fixed allowlists, looks up a fixed price in cents and asks the payment
 * provider for a one-line checkout session.  `Decide` is everything before
 * the provider call: it returns either the error response or the session
 * request.  `Post` adds the provider, which is a parameter here.
 */
module CheckoutRoute {

  import opened Wrappers
  import opened Json

  datatype Variant = Clear | Nude | Duo
  datatype Pack = Single | Studio

  /** The lot string every session's metadata carries. */
  const Lot: string := "Lot No. 2025-JPN-01"

  const SuccessPath: string := "/success?session_id={CHECKOUT_SESSION_ID}"
  const CancelPath: string := "/cancel"

  const InvalidVariant: string := "Invalid variant"
  const InvalidPack: string := "Invalid pack"
  const CreateFailed: string := "Failed to create checkout session"

  function VariantName(v: Variant): string {
    match v
    case Clear => "clear"
    case Nude => "nude"
    case Duo => "duo"
  }

  function PackName(p: Pack): string {
    match p
    case Single => "single"
    case Studio => "studio"
  }

  /** PRICES: fixed unit amounts in cents, no multipliers. */
  function UnitAmount(p: Pack, v: Variant): nat {
    match (p, v)
    case (Single, Clear) => 1800
    case (Single, Nude) => 1800
    case (Single, Duo) => 2800
    case (Studio, Clear) => 5800
    case (Studio, Nude) => 5800
    case (Studio, Duo) => 9800
  }

  /** PRODUCT_NAMES */
  function ProductName(v: Variant): string {
    match v
    case Clear => "LUSTER Clear Structure"
    case Nude => "LUSTER Nude Structure"
    case Duo => "LUSTER System Duo"
  }

  /** SIZES */
  function Size(p: Pack): string {
    match p
    case Single => "5g"
    case Studio => "25g"
  }

  /** DESCRIPTIONS */
  function Description(p: Pack, v: Variant): string {
    match (p, v)
    case (Single, Clear) => "5g · Professional use"
    case (Single, Nude) => "5g · Professional use"
    case (Single, Duo) => "5g Clear + 5g Nude"
    case (Studio, Clear) => "25g Studio size"
    case (Studio, Nude) => "25g Studio size"
    case (Studio, Duo) => "25g Clear + 25g Nude"
  }

  datatype ProductData = ProductData(name: string, description: string)
  datatype PriceData = PriceData(currency: string, productData: ProductData, unitAmount: int)
  datatype LineItem = LineItem(priceData: PriceData, quantity: int)
  datatype Metadata = Metadata(variant: string, pack: string, size: string, lot: string)

  /** The argument of the provider's session-creation call. */
  datatype SessionRequest = SessionRequest(
    paymentMethodTypes: seq<string>,
    lineItems: seq<LineItem>,
    mode: string,
    successUrl: string,
    cancelUrl: string,
    metadata: Metadata)

  datatype ResponseBody = ErrorBody(error: string) | UrlBody(url: Option<string>)
  datatype HttpResponse = HttpResponse(status: int, body: ResponseBody)

  /** What the provider call gives back: a session (whose url may be null) or a thrown error. */
  datatype ProviderResult = Created(url: Option<string>) | ProviderFailed

  datatype Decision = Reject(response: HttpResponse) | CreateSession(request: SessionRequest)

  function BadRequest(message: string): HttpResponse {
    HttpResponse(400, ErrorBody(message))
  }

  /** What the `catch` block answers with. */
  const ServerError: HttpResponse := HttpResponse(500, ErrorBody(CreateFailed))

  /** `!variant || !['clear', 'nude', 'duo'].includes(variant)`, read positively. */
  function VariantOf(v: Option<JsonValue>): (r: Option<Variant>)
    ensures forall x :: r == Some(x) <==> v == Some(JString(VariantName(x)))
  {
    if !Truthy(v) then None
    else
      match v
      case Some(JString(s)) =>
        if s == "clear" then Some(Clear)
        else if s == "nude" then Some(Nude)
        else if s == "duo" then Some(Duo)
        else None
      case _ => None
  }

  /** `['single', 'studio'].includes(pack)`, read positively. */
  function PackOf(p: Option<JsonValue>): (r: Option<Pack>)
    ensures forall x :: r == Some(x) <==> p == Some(JString(PackName(x)))
  {
    match p
    case Some(JString(s)) =>
      if s == "single" then Some(Single)
      else if s == "studio" then Some(Studio)
      else None
    case _ => None
  }

  /** The session request built for a valid variant and pack. */
  function SessionFor(v: Variant, p: Pack, origin: string): SessionRequest {
    SessionRequest(
      ["card"],
      [LineItem(PriceData("cad", ProductData(ProductName(v), Description(p, v)), UnitAmount(p, v)), 1)],
      "payment",
      origin + SuccessPath,
      origin + CancelPath,
      Metadata(VariantName(v), PackName(p), Size(p), Lot))
  }

  /**
   * The handler up to the provider call.  `body` is what `request.json()`
   * produced, `None` when it threw; destructuring a `null` body throws too.
   * Every throw lands in the `catch` block.
   */
  function Decide(body: Option<JsonValue>, origin: string): (r: Decision)
    ensures body.None? || body == Some(JNull) ==> r == Reject(ServerError)
    ensures body.Some? && body.value != JNull ==>
      var variant := VariantOf(Property(body.value, "variant"));
      var pack := PackOf(Property(body.value, "pack"));
      && (variant.None? <==> r == Reject(BadRequest(InvalidVariant)))
      && (variant.Some? && pack.None? <==> r == Reject(BadRequest(InvalidPack)))
      && (variant.Some? && pack.Some? <==> r.CreateSession?)
    ensures body.Some? && body.value != JNull && r.CreateSession? ==>
      r.request == SessionFor(VariantOf(Property(body.value, "variant")).value,
                              PackOf(Property(body.value, "pack")).value, origin)
  {
    match body
    case None => Reject(ServerError)
    case Some(JNull) => Reject(ServerError)
    case Some(b) =>
      match (VariantOf(Property(b, "variant")), PackOf(Property(b, "pack")))
      case (None, _) => Reject(BadRequest(InvalidVariant))
      case (Some(_), None) => Reject(BadRequest(InvalidPack))
      case (Some(v), Some(p)) => CreateSession(SessionFor(v, p, origin))
  }

  /** The whole handler: the provider is called only on a session request. */
  function Post(body: Option<JsonValue>, origin: string, provider: SessionRequest -> ProviderResult): (r: HttpResponse)
    ensures r.status == 200 <==> Decide(body, origin).CreateSession? && provider(Decide(body, origin).request).Created?
    ensures r.status == 200 ==> r.body == UrlBody(provider(Decide(body, origin).request).url)
    ensures r.status != 200 ==> r.body.ErrorBody? && r.status in {400, 500}
  {
    match Decide(body, origin)
    case Reject(response) => response
    case CreateSession(request) =>
      match provider(request)
      case Created(url) => HttpResponse(200, UrlBody(url))
      case ProviderFailed => ServerError
  }

  /**
   * A body naming a valid variant and pack gives exactly one line item of
   * quantity 1 in Canadian dollars, priced, named and described from the
   * tables, with the origin's success and cancel pages and the metadata.
   */
  lemma ValidBodyGivesOneLineSession(body: JsonValue, origin: string, v: Variant, p: Pack)
    requires Property(body, "variant") == Some(JString(VariantName(v)))
    requires Property(body, "pack") == Some(JString(PackName(p)))
    ensures Decide(Some(body), origin).CreateSession?
    ensures var req := Decide(Some(body), origin).request;
      && |req.lineItems| == 1
      && req.lineItems[0].quantity == 1
      && req.lineItems[0].priceData.currency == "cad"
      && req.lineItems[0].priceData.unitAmount == UnitAmount(p, v)
      && req.lineItems[0].priceData.productData == ProductData(ProductName(v), Description(p, v))
      && req.successUrl == origin + "/success?session_id={CHECKOUT_SESSION_ID}"
      && req.cancelUrl == origin + "/cancel"
      && req.metadata == Metadata(VariantName(v), PackName(p), Size(p), Lot)
  {
  }

  /** Only `variant` and `pack` are read: any other field, `items` included, is ignored. */
  lemma OnlyVariantAndPackMatter(b1: JsonValue, b2: JsonValue, origin: string)
    requires b1 != JNull && b2 != JNull
    requires Property(b1, "variant") == Property(b2, "variant")
    requires Property(b1, "pack") == Property(b2, "pack")
    ensures Decide(Some(b1), origin) == Decide(Some(b2), origin)
  {
  }

  /** A rejected body never reaches the provider: the answer is the same whatever it would do. */
  lemma RejectionIgnoresProvider(body: Option<JsonValue>, origin: string,
                                 f: SessionRequest -> ProviderResult, g: SessionRequest -> ProviderResult)
    requires Decide(body, origin).Reject?
    ensures Post(body, origin, f) == Post(body, origin, g) == Decide(body, origin).response
  {
  }

  /** Any throw (unparsable body, provider failure) is answered with 500 and the generic message. */
  lemma ThrowsAnswer500(body: Option<JsonValue>, origin: string, provider: SessionRequest -> ProviderResult)
    requires body.None? || (Decide(body, origin).CreateSession? && provider(Decide(body, origin).request).ProviderFailed?)
    ensures Post(body, origin, provider) == HttpResponse(500, ErrorBody("Failed to create checkout session"))
  {
  }

  /** The size in the metadata is the size the product description starts with. */
  lemma DescriptionStartsWithSize(p: Pack, v: Variant)
    ensures |Size(p)| <= |Description(p, v)| && Description(p, v)[..|Size(p)|] == Size(p)
  {
  }
}
