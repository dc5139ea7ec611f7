/**
 * The browser side of cart checkout (src/lib/goToCartCheckout.ts): refuse an
 * empty cart, POST `{items}` to the checkout endpoint, and turn the reply
 * into either a thrown error or a navigation target.  The network round trip
 * is the `respond` parameter; navigation is the `Navigate` outcome.
 */
module CartCheckout {

  import opened Wrappers
  import opened Json
  import CheckoutRoute

  /** CartCheckoutItem */
  datatype CheckoutItem = CheckoutItem(priceId: string, quantity: int)

  datatype Request = Request(httpMethod: string, path: string, contentType: string, body: JsonValue)

  /**
   * The reply as the client reads it: a transport failure (fetch or
   * `res.json()` threw), or `res.ok` with the parsed body's `error` and
   * `url` fields (`None` when absent or null).
   */
  datatype Response =
    | TransportFailed(message: string)
    | Reply(ok: bool, error: Option<string>, url: Option<string>)

  datatype Outcome = Thrown(message: string) | Navigate(url: string)

  const EmptyCart: string := "Cart is empty"
  const CheckoutFailed: string := "Checkout failed"

  /** JavaScript truthiness of an optional string field. */
  predicate Present(s: Option<string>) {
    s.Some? && s.value != ""
  }

  function ItemJson(item: CheckoutItem): JsonValue {
    JObject(map["priceId" := JString(item.priceId), "quantity" := JNumber(item.quantity)])
  }

  function ItemsJson(items: seq<CheckoutItem>): JsonValue {
    JArray(seq(|items|, i requires 0 <= i < |items| => ItemJson(items[i])))
  }

  /** `fetch('/api/checkout', {method: 'POST', ..., body: JSON.stringify({items})})` */
  function CartRequest(items: seq<CheckoutItem>): Request {
    Request("POST", "/api/checkout", "application/json", JObject(map["items" := ItemsJson(items)]))
  }

  /** The two `throw`s after the reply, in order, and the navigation. */
  function Classify(response: Response): (r: Outcome)
    ensures r.Navigate? <==> response.Reply? && response.ok && Present(response.url)
    ensures r.Navigate? ==> r.url == response.url.value
    ensures response.Reply? && !response.ok ==>
      r == Thrown(if Present(response.error) then response.error.value else CheckoutFailed)
    ensures response.Reply? && response.ok && !Present(response.url) ==> r == Thrown(CheckoutFailed)
    ensures response.TransportFailed? ==> r == Thrown(response.message)
  {
    match response
    case TransportFailed(message) => Thrown(message)
    case Reply(ok, error, url) =>
      if !ok then Thrown(if Present(error) then error.value else CheckoutFailed)
      else if !Present(url) then Thrown(CheckoutFailed)
      else Navigate(url.value)
  }

  /** `goToCartCheckout(items)` */
  function GoToCartCheckout(items: seq<CheckoutItem>, respond: Request -> Response): (r: Outcome)
    ensures |items| == 0 ==> r == Thrown(EmptyCart)
    ensures |items| > 0 ==> r == Classify(respond(CartRequest(items)))
  {
    if |items| == 0 then Thrown(EmptyCart)
    else Classify(respond(CartRequest(items)))
  }

  /** An empty cart is refused before any request: the reply does not matter. */
  lemma EmptyCartSendsNothing(f: Request -> Response, g: Request -> Response)
    ensures GoToCartCheckout([], f) == GoToCartCheckout([], g) == Thrown("Cart is empty")
  {
  }

  /** The request is a POST of a body whose only field is `items`, one entry per item. */
  lemma CartRequestShape(items: seq<CheckoutItem>)
    ensures CartRequest(items).httpMethod == "POST" && CartRequest(items).path == "/api/checkout"
    ensures CartRequest(items).body.JObject? && CartRequest(items).body.fields.Keys == {"items"}
    ensures var entries := CartRequest(items).body.fields["items"];
      entries.JArray? && |entries.elems| == |items| &&
      forall i | 0 <= i < |items| ::
        Property(entries.elems[i], "priceId") == Some(JString(items[i].priceId)) &&
        Property(entries.elems[i], "quantity") == Some(JNumber(items[i].quantity))
  {
  }

  /** How the browser reads the endpoint's answer. */
  function FromRoute(response: CheckoutRoute.HttpResponse): Response {
    Reply(
      200 <= response.status <= 299,
      if response.body.ErrorBody? then Some(response.body.error) else None,
      if response.body.UrlBody? then response.body.url else None)
  }

  /**
   * The endpoint reads only `variant` and `pack`, so the `{items}` body this
   * client posts is always answered with 400 "Invalid variant", whatever the
   * items and whatever the provider would do, and the client throws that
   * message.
   */
  lemma CartCheckoutMeetsInvalidVariant(items: seq<CheckoutItem>, origin: string,
                                        provider: CheckoutRoute.SessionRequest -> CheckoutRoute.ProviderResult)
    requires |items| > 0
    ensures CheckoutRoute.Post(Some(CartRequest(items).body), origin, provider)
         == CheckoutRoute.HttpResponse(400, CheckoutRoute.ErrorBody("Invalid variant"))
    ensures GoToCartCheckout(items, (req: Request) => FromRoute(CheckoutRoute.Post(Some(req.body), origin, provider)))
         == Thrown("Invalid variant")
  {
    var body := CartRequest(items).body;
    assert Property(body, "variant") == None;
  }
}
