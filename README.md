# luster storefront — a verified model of its checkout and page logic

This project models the logic of the luster storefront in Dafny:

- **Price catalogue.** The price-identifier catalogue keyed by `shade_format_tier` and by the legacy `format_tier` keys.
- **Shop page.** Tier defaults and per-format tier selection, the cart, the size label, the tab keyboard handling, and the checkout that collapses the cart into `(priceId, quantity)` lines.
- **Cart checkout client.** The request it sends and the three-way classification of the reply.
- **Checkout endpoint.** Its validation of `variant` and `pack` and the single-line session request it builds.
- **Legacy product selector.**
- **Accordion.** The open-section set.
- **Toasts.** The toast list.
- **Scroll controller.** The section-by-section scroll decisions.

Files (one module each):

| file | models |
|---|---|
| `Wrappers.dfy` | `Option` and `Result` |
| `Json.dfy` | JSON values, JavaScript truthiness and property access |
| `Catalog.dfy` | `STRIPE_PRICES`, its key set, and key lookup |
| `CheckoutRoute.dfy` | `POST /api/checkout` |
| `CartCheckout.dfy` | `goToCartCheckout` |
| `Shop.dfy` | the shop page, with the `ShopPage` class for its state |
| `ProductSelector.dfy` | the legacy single-selection selector, with the `Selector` class |
| `TechAccordion.dfy` | the accordion, with the `Accordion` class |
| `Toast.dfy` | the toast provider, with the `ToastProvider` class |
| `SectionScroll.dfy` | the scroll controller, with the `Controller` class for its refs |

How the model represents the source:

- **Component state.** The page and components keep state in React `useState`/`useRef`. Here that state is the fields of a class. Each state update is a method whose `ensures` gives the whole new state.
- **Pure code.** Pure helpers (lookups, filters, decisions) are functions.
- **Loops.** The loops in the source are methods with loop invariants, each proved against a specification function:
  - the `Map` aggregation in `handleCheckout`;
  - the `forEach` that seeds the accordion;
  - the `getClosestIndex` scan.
- **Catalogue lookup.** `STRIPE_PRICES` is a table indexed by a datatype of keys (`Catalog.PriceId`).
  - A key string is looked up by splitting it at `_` and reading the parts back (`Catalog.Lookup`). The splitting (`Split`, `Join` and their lemmas) is the model's own parser of key strings; the source only builds such strings.
  - The round-trip lemmas (`ParseKeyName`, `KeyNameOfParse`, `LookupKeyName`, `LookupHit`) show this is the same as indexing the object with the string.
  - The index uses the object's own keys only: no `Object.prototype` member name has the form `shade_format_tier` with catalogue parts.
- **Checkout endpoint.** The body is an `Option<JsonValue>`; `None` is a body that does not parse. Reading `variant` and `pack` out of `null` throws, so `null` is answered with 500, as any throw is.
- **External calls.** The payment provider, `fetch`, the DOM and timers are parameters:
  - `provider` and `respond` are functions;
  - section tops and the scroll offset are sequences of integers;
  - the window width is `Option<int>`, with `None` meaning there is no window;
  - fresh ids are arguments.

The two checkout clients do not match the endpoint:

- The shop page's cart checkout posts `{items}`. The endpoint reads only `variant` and `pack`, so every cart checkout is answered with 400 "Invalid variant". The client then throws that message (`CartCheckout.CartCheckoutMeetsInvalidVariant`).
- The legacy selector posts `{priceId, quantity, shade}` through `src/lib/goToCheckout.ts` and meets the same answer (`ProductSelector.SelectorCheckoutMeetsInvalidVariant`).

The model states this outright rather than adding a validator the endpoint does not have.

The shop page's tier table and the selector's SKU table agree on ids, names, prices and blurbs. They recommend different bottles: the page recommends the standard bottle and the selector the studio bottle (`ProductSelector.RecommendationsDiffer`).

## Model

| member | source | states |
|---|---|---|
| Catalog.PriceId | src/lib/stripePrices.ts:1-56 | definition: the `STRIPE_PRICES` literal, one case per entry; what it holds is proved in `CatalogKeys`, `PriceIdIsPrefixedKey` and `PriceIdsDistinct` |
| Catalog.CatalogKeys | src/lib/stripePrices.ts:1-56 | a key has an entry exactly when it is a legacy jar key (sample/studio/refill), a legacy bottle key (sample/standard/studio), a jar shade key for {clear, milky, nude, sheer} × {sample, studio, refill}, or a bottle shade key for {clear, milky, nude} × {sample, standard, studio} (no sheer bottle) |
| Catalog.PriceIdIsPrefixedKey | src/lib/stripePrices.ts:5-55 | every entry's value is `PLACEHOLDER_` followed by its own key |
| Catalog.PriceIdsDistinct | src/lib/stripePrices.ts:5-55 | two keys have the same identifier exactly when they are the same key |
| Catalog.FormatOf | src/lib/stripePrices.ts:58 | a key segment reads as a format exactly when it is that format's name |
| Catalog.ShadeOf | src/lib/stripePrices.ts:58 | a key segment reads as a shade exactly when it is that shade's name |
| Catalog.TierOf | src/lib/stripePrices.ts:58 | a key segment reads as a tier exactly when it is that tier's name |
| Catalog.ParseKeyName | src/lib/stripePrices.ts:58 | reading a key's string gives back the key |
| Catalog.KeyNameOfParse | src/lib/stripePrices.ts:58 | a string that reads as a key is that key's string |
| Catalog.KeyNameInjective | src/lib/stripePrices.ts:58 | different keys have different strings |
| Catalog.Lookup | src/app/shop/page.tsx:106-107 | definition: `STRIPE_PRICES[key]` for a key-shaped string; its meaning is proved in `LookupKeyName` and `LookupHit` |
| Catalog.LookupKeyName | src/lib/stripePrices.ts:1-56 | looking up a key's string gives that key's entry |
| Catalog.LookupHit | src/lib/stripePrices.ts:1-56 | a string found in the table is the string of a catalogue key |
| Catalog.ParseShadeKeyString | src/app/shop/page.tsx:106 | `shade + "_" + format + "_" + tier` reads as a per-shade key exactly when the shade and tier strings are catalogue names |
| Catalog.ShadeKeyNameOf | src/app/shop/page.tsx:106 | the key named by catalogue shade and tier strings renders back to `shade + "_" + format + "_" + tier` |
| Catalog.LookupShadeTriple | src/app/shop/page.tsx:106 | indexing the table with `shade + "_" + format + "_" + tier` gives the entry of the key those strings name |
| CheckoutRoute.UnitAmount | src/app/api/checkout/route.ts:13-24 | definition: the `PRICES` table in cents; its use is proved in `ValidBodyGivesOneLineSession` |
| CheckoutRoute.ProductName | src/app/api/checkout/route.ts:26-30 | definition: the `PRODUCT_NAMES` table; its use is proved in `ValidBodyGivesOneLineSession` |
| CheckoutRoute.Size | src/app/api/checkout/route.ts:32-35 | definition: the `SIZES` table; its use is proved in `ValidBodyGivesOneLineSession` |
| CheckoutRoute.Description | src/app/api/checkout/route.ts:37-48 | definition: the `DESCRIPTIONS` table; `DescriptionStartsWithSize` relates it to `SIZES` |
| CheckoutRoute.SessionFor | src/app/api/checkout/route.ts:66-91 | definition: the argument of `stripe.checkout.sessions.create`; its fields are proved in `ValidBodyGivesOneLineSession` |
| CheckoutRoute.VariantOf | src/app/api/checkout/route.ts:55 | a variant is accepted exactly when the field is the string `clear`, `nude` or `duo` (missing, falsy and other values are rejected) |
| CheckoutRoute.PackOf | src/app/api/checkout/route.ts:59 | a pack is accepted exactly when the field is the string `single` or `studio` |
| CheckoutRoute.Decide | src/app/api/checkout/route.ts:52-61 | an unparsable or `null` body is a 500; a bad variant is 400 "Invalid variant" whatever the pack; a good variant with a bad pack is 400 "Invalid pack"; both good gives a session request for that variant and pack |
| CheckoutRoute.Post | src/app/api/checkout/route.ts:50-101 | status 200 exactly when a session was requested and created, with the provider's url as the body; every other answer is a 400 or 500 error body |
| CheckoutRoute.ValidBodyGivesOneLineSession | src/app/api/checkout/route.ts:4-91 | a valid body gives one line item, quantity 1, currency `cad`, the table's unit amount in cents, name and description, the origin's success and cancel urls, and metadata with variant, pack, size and lot |
| CheckoutRoute.OnlyVariantAndPackMatter | src/app/api/checkout/route.ts:53 | two bodies with the same `variant` and `pack` fields get the same decision |
| CheckoutRoute.RejectionIgnoresProvider | src/app/api/checkout/route.ts:55-61 | a rejected body never reaches the provider |
| CheckoutRoute.ThrowsAnswer500 | src/app/api/checkout/route.ts:94-99 | an unparsable body or a failed provider call gives 500 "Failed to create checkout session" |
| CheckoutRoute.DescriptionStartsWithSize | src/app/api/checkout/route.ts:32-48 | every description begins with the size recorded in the metadata |
| CartCheckout.CartRequest | src/lib/goToCartCheckout.ts:11-15 | definition: the POST to `/api/checkout` with `{items}`; its shape is proved in `CartRequestShape` |
| CartCheckout.FromRoute | src/lib/goToCartCheckout.ts:17-19 | definition: how the client reads the route's answer (`res.ok`, `data.error`, `data.url`); used in `CartCheckoutMeetsInvalidVariant` |
| CartCheckout.Classify | src/lib/goToCartCheckout.ts:17-21 | a reply navigates exactly when it is ok with a present url, and then to that url; a non-ok reply throws its truthy error or "Checkout failed"; an ok reply without url throws "Checkout failed" |
| CartCheckout.GoToCartCheckout | src/lib/goToCartCheckout.ts:6-22 | an empty list throws "Cart is empty" without a request; otherwise the outcome is the classification of the reply to the cart request |
| CartCheckout.EmptyCartSendsNothing | src/lib/goToCartCheckout.ts:7-9 | with an empty list the outcome does not depend on the server at all |
| CartCheckout.CartRequestShape | src/lib/goToCartCheckout.ts:11-15 | the request is a POST to `/api/checkout` whose body is an object with the single field `items`, holding one `{priceId, quantity}` object per item in order |
| CartCheckout.CartCheckoutMeetsInvalidVariant | src/lib/goToCartCheckout.ts:11-19 | against the real endpoint, every non-empty cart is answered with 400 "Invalid variant" and the client throws that message |
| Shop.FindFirst | src/app/shop/page.tsx:93 | the first index whose element satisfies the predicate, or none when no element does |
| Shop.GetDefaultTierId | src/app/shop/page.tsx:92-94 | the id of the first recommended tier, else of the first tier, else `""` |
| Shop.DefaultTiers | src/app/shop/page.tsx:132-135 | the jar tiers default to `refill` and the bottle tiers to `standard` |
| Shop.CurrentTier | src/app/shop/page.tsx:407 | the first tier with the selected id, else the first tier; none only for an empty table |
| Shop.DecimalString | src/app/shop/page.tsx:98 | the rendering of a number is a non-empty string of digits |
| Shop.DecimalRoundTrip | src/app/shop/page.tsx:98 | reading the rendered digits gives back the number |
| Shop.FormatSpec | src/app/shop/page.tsx:96-99 | the label starts with `NET WT. ` for jars or `NET VOL. ` for bottles, ends with ` g` or ` mL`, and the digits between read back as the value |
| Shop.GetStripePriceId | src/app/shop/page.tsx:105-108 | definition: the template string looked up, `""` when absent; its meaning is proved in `GetStripePriceIdMeaning` and `CatalogTripleResolves` |
| Shop.GetStripePriceIdMeaning | src/app/shop/page.tsx:105-108 | the id is the catalogue entry of (shade, format, tier) when both strings name catalogue values and the entry exists, and `""` otherwise |
| Shop.OfferedTiersInCatalog | src/app/shop/page.tsx:57-76 | every tier the page offers for a format is a catalogue tier of that format |
| Shop.ProductShadesInCatalog | src/app/shop/page.tsx:78-88 | every product names a catalogue shade, and no bottle is sheer |
| Shop.CatalogTripleResolves | src/app/shop/page.tsx:105-108 | a catalogue (shade, format, tier) resolves to `PLACEHOLDER_shade_format_tier` |
| Shop.OfferedPairsResolve | src/app/shop/page.tsx:57-108 | every product and tier pair the page offers resolves to its own non-empty identifier |
| Shop.TierSelection.Set | src/app/shop/page.tsx:296-319 | selecting a tier sets the chosen format's entry and keeps the other format's |
| Shop.Entry | src/app/shop/page.tsx:163-182 | the cart entry carries the price id resolved for the product's shade and format and the tier's id, plus the tier's price |
| Shop.Total | src/app/shop/page.tsx:140 | definition: the `reduce` sum of the entries' prices; its meaning is proved in `TotalAppend` |
| Shop.TotalAppend | src/app/shop/page.tsx:140 | adding an entry adds its price to the total |
| Shop.PriceIds | src/app/shop/page.tsx:196-197 | the sequence of the entries' price ids, in cart order |
| Shop.FirstIndex | src/app/shop/page.tsx:198 | the position of the first occurrence |
| Shop.OccurrencesPositive | src/app/shop/page.tsx:197-198 | an id is counted at least once exactly when it occurs |
| Shop.DistinctElements | src/app/shop/page.tsx:195-203 | the distinct ids are exactly the ids of the cart, each once |
| Shop.DistinctInFirstOccurrenceOrder | src/app/shop/page.tsx:195-203 | the distinct ids come in the order of their first appearance, as a `Map` iterates its keys |
| Shop.SumOverDistinct | src/app/shop/page.tsx:195-199 | the counts over the distinct ids add up to the number of entries |
| Shop.Aggregated | src/app/shop/page.tsx:195-203 | definition: one `{priceId, quantity}` line per distinct id in first-occurrence order; its meaning is proved in `AggregatedLines` |
| Shop.AggregatedLines | src/app/shop/page.tsx:195-203 | one line per distinct id, no id twice, no id that is not in the cart, each quantity the number of entries with that id and at least 1, the quantities summing to the cart length |
| Shop.AggregatedNonEmpty | src/app/shop/page.tsx:189-203 | a non-empty cart gives at least one line |
| Shop.Aggregate | src/app/shop/page.tsx:195-203 | the `Map` loop and `Array.from(entries)` compute exactly the aggregated lines |
| Shop.ActiveProducts | src/app/shop/page.tsx:138 | the products shown are exactly those of the current format |
| Shop.FilterAppend | src/app/shop/page.tsx:138 | `filter` distributes over concatenation, so the kept products stay in table order |
| Shop.JarProductsInOrder | src/app/shop/page.tsx:138 | the jar tab lists exactly the four jar products, in table order, each once |
| Shop.BottleProductsInOrder | src/app/shop/page.tsx:138 | the bottle tab lists exactly the three bottle products, in table order, each once |
| Shop.ShopPage.constructor | src/app/shop/page.tsx:126-135 | the page opens on jars with an empty cart, no error, and tiers `refill`/`standard` selected |
| Shop.ShopPage.CartTotal | src/app/shop/page.tsx:140 | definition: `cartTotal`, the total of the cart; `AddToCart` proves it grows by the added price |
| Shop.ShopPage.CartCount | src/app/shop/page.tsx:141 | definition: `cartCount`, the cart length; `AddToCart` proves it grows by one |
| Shop.ShopPage.SelectTier | src/app/shop/page.tsx:296-319 | only the given format's selection changes |
| Shop.ShopPage.SetFormat | src/app/shop/page.tsx:146-151 | the format changes; the cart and both tier choices are kept |
| Shop.ShopPage.OnTabKeyDown | src/app/shop/page.tsx:153-161 | either arrow key switches to the other format; any other key changes nothing |
| Shop.ShopPage.AddToCart | src/app/shop/page.tsx:163-186 | exactly one entry is appended at the end, earlier entries are kept, the error is cleared, the total grows by the tier's price and the count by one |
| Shop.ShopPage.HandleCheckout | src/app/shop/page.tsx:188-210 | an empty cart changes nothing; otherwise the aggregated lines go to the cart checkout, whose thrown message becomes the error, or whose url is navigated to; the cart is kept |
| Shop.CheckoutNeverSendsEmptyCart | src/app/shop/page.tsx:189-205 | from the page, the client's empty-cart guard never fires: the request is always sent |
| ProductSelector.JarSku | src/components/store/ProductSelector.tsx:21-38 | definition: the `JAR_SKUS` table; `JarSkusMatchShopTiers` relates it to the shop page |
| ProductSelector.BottleSku | src/components/store/ProductSelector.tsx:41-58 | definition: the `BOTTLE_SKUS` table; `BottleSkusMatchShopTiers` relates it to the shop page |
| ProductSelector.GetJarPriceId | src/components/store/ProductSelector.tsx:60-64 | sample, studio and refill map to the catalogue's `jar_sample`, `jar_studio` and `jar_refill` entries |
| ProductSelector.GetBottlePriceId | src/components/store/ProductSelector.tsx:66-70 | sample, standard and studio map to the catalogue's `bottle_sample`, `bottle_standard` and `bottle_studio` entries |
| ProductSelector.LegacyPriceIdsDistinct | src/components/store/ProductSelector.tsx:60-70 | different variants get different identifiers, and no jar identifier is a bottle identifier |
| ProductSelector.JarSkusMatchShopTiers | src/components/store/ProductSelector.tsx:21-38 | each jar SKU has a shop tier with the same id, name, price and blurb |
| ProductSelector.BottleSkusMatchShopTiers | src/components/store/ProductSelector.tsx:41-57 | each bottle SKU has a shop tier with the same id, name, price and blurb |
| ProductSelector.RecommendationsDiffer | src/components/store/ProductSelector.tsx:53-57 | the shop page recommends the standard bottle where the selector recommends the studio bottle |
| ProductSelector.SelectedSkuOf | src/components/store/ProductSelector.tsx:115-117 | no SKU exactly when the current format's variant is unset; otherwise that variant's entry in the format's table |
| ProductSelector.CheckoutCallOf | src/components/store/ProductSelector.tsx:119-128 | no call without a selected SKU; otherwise the current format's variant's legacy identifier and the SKU's name |
| ProductSelector.RecommendedBadges | src/components/store/ProductSelector.tsx:165-205 | the badge shows exactly for the refill jar and the studio bottle while not selected |
| ProductSelector.CheckoutBody | src/lib/goToCheckout.ts:5 | the single-item request body has exactly the fields `priceId`, `quantity` and `shade` |
| ProductSelector.SelectorCheckoutMeetsInvalidVariant | src/lib/goToCheckout.ts:2-6 | against the real endpoint, the selector's request is answered with 400 "Invalid variant" |
| ProductSelector.Selector.constructor | src/components/store/ProductSelector.tsx:90-95 | jars, both variants unset, no SKU selected |
| ProductSelector.Selector.SetFormat | src/components/store/ProductSelector.tsx:150 | switching format keeps both stored variants |
| ProductSelector.Selector.SelectJar | src/components/store/ProductSelector.tsx:172 | only the jar variant changes |
| ProductSelector.Selector.SelectBottle | src/components/store/ProductSelector.tsx:211 | only the bottle variant changes |
| ProductSelector.Selector.HandleCheckout | src/components/store/ProductSelector.tsx:119-133 | without a selection nothing happens; otherwise the error is cleared and the call made, and its thrown message becomes the error |
| TechAccordion.Narrow | src/components/ui/TechAccordion.tsx:71 | definition: `typeof window !== 'undefined' && window.innerWidth < 768`; used by `Toggled` |
| TechAccordion.DefaultOpenIds | src/components/ui/TechAccordion.tsx:55-61 | definition: the ids of the sections marked open by default; `InitialOpenIds` is proved to compute it |
| TechAccordion.InitialOpenIds | src/components/ui/TechAccordion.tsx:55-61 | the `forEach` collects exactly the ids of the sections marked open by default |
| TechAccordion.DefaultOpenSections | src/components/ui/TechAccordion.tsx:12-51 | those are `formulation` and `performance` |
| TechAccordion.Toggled | src/components/ui/TechAccordion.tsx:63-78 | the toggled id flips; no other id is ever added; other ids are kept except when opening on a narrow screen, where only the toggled id is left |
| TechAccordion.ToggleTwiceRestores | src/components/ui/TechAccordion.tsx:63-78 | on a wide screen or without a window, toggling twice restores the set |
| TechAccordion.ToggleTwiceNarrow | src/components/ui/TechAccordion.tsx:71-74 | on a narrow screen, opening and closing a section leaves nothing open |
| TechAccordion.NarrowKeepsAtMostOneOpen | src/components/ui/TechAccordion.tsx:71-74 | on a narrow screen, at most one section stays open once at most one is |
| TechAccordion.Accordion.constructor | src/components/ui/TechAccordion.tsx:55-61 | the accordion opens with formulation and performance open |
| TechAccordion.Accordion.Toggle | src/components/ui/TechAccordion.tsx:63-78 | the new set is the toggled set |
| Toast.UseToast | src/components/ui/Toast.tsx:20-26 | the provider's value, or the error "useToast must be used within a ToastProvider" without one |
| Toast.Without | src/components/ui/Toast.tsx:42 | the filter never lengthens the list; what it keeps is proved in `WithoutMembers` and `WithoutAppend` |
| Toast.WithoutMembers | src/components/ui/Toast.tsx:36-43 | the kept toasts are exactly those of the list with a different id |
| Toast.WithoutAppend | src/components/ui/Toast.tsx:42 | the filter keeps the others in their order |
| Toast.WithoutAbsent | src/components/ui/Toast.tsx:42 | dismissing an id that is not shown changes nothing |
| Toast.WithoutIdempotent | src/components/ui/Toast.tsx:36-43 | the auto-dismiss after a manual dismiss does nothing |
| Toast.ShowThenDismiss | src/components/ui/Toast.tsx:31-43 | showing a toast under a fresh id and dismissing it restores the list |
| Toast.ToastProvider.ShowToast | src/components/ui/Toast.tsx:31-33 | exactly one toast is appended, with the message and the kind, `error` by default |
| Toast.ToastProvider.Dismiss | src/components/ui/Toast.tsx:36-43 | every toast with the id is removed and the rest kept |
| SectionScroll.ClosestIsUnique | src/components/SectionScrollController.tsx:47 | ties go to the earliest section, so the closest index is unique |
| SectionScroll.ClosestIndex | src/components/SectionScrollController.tsx:39-53 | the index minimising the distance to the scroll offset, the earliest among ties; 0 without sections |
| SectionScroll.Clamp | src/components/SectionScrollController.tsx:76 | with sections, the index is clamped into range; without, it is 0 |
| SectionScroll.StepFor | src/components/SectionScrollController.tsx:126-164 | no step below the threshold; otherwise +1 for a positive delta and -1 otherwise |
| SectionScroll.StepFollowsSign | src/components/SectionScrollController.tsx:126-164 | with a positive threshold, a step is -1 exactly for a negative delta |
| SectionScroll.HashTarget | src/components/SectionScrollController.tsx:94-97 | a link is followed exactly when its href has an id after the `#`, and then to that id |
| SectionScroll.HashLinkRoundTrip | src/components/SectionScrollController.tsx:94-97 | `#id` leads to `id`, and `#` alone to nothing |
| SectionScroll.Controller.AnimateTo | src/components/SectionScrollController.tsx:55-72 | while animating nothing changes; otherwise the flag is set and the target recorded |
| SectionScroll.Controller.FinishAnimation | src/components/SectionScrollController.tsx:67-68 | the frame reaching the end clears the flag |
| SectionScroll.Controller.ScrollToIndex | src/components/SectionScrollController.tsx:74-79 | without sections it throws; otherwise it animates to the clamped section |
| SectionScroll.Controller.ScrollToId | src/components/SectionScrollController.tsx:81-86 | a missing element does nothing; otherwise it animates to the element's top less the offset |
| SectionScroll.Controller.OnWheel | src/components/SectionScrollController.tsx:115-120 | ignored while animating; otherwise the delta is added to the total |
| SectionScroll.Controller.OnWheelTimer | src/components/SectionScrollController.tsx:123-130 | the total is reset to 0; below 18 nothing moves; otherwise one step from the closest section |
| SectionScroll.Controller.OnTouchStart | src/components/SectionScrollController.tsx:135-141 | outside an animation a touch records its position as start and last |
| SectionScroll.Controller.OnTouchMove | src/components/SectionScrollController.tsx:143-150 | outside an animation a move records the last position |
| SectionScroll.Controller.OnTouchEnd | src/components/SectionScrollController.tsx:152-165 | ignored while animating; otherwise both positions are cleared, and a swipe of at least 36 steps one section from the closest one |

## Left out

- The `console.error('Checkout error:', error)` logging in the checkout route's `catch` block is not modelled; only the 500 answer that follows it is.
- The payment provider call and the secret-key read are not modelled. The provider is a function parameter whose result is a url (possibly absent) or a failure.
- `fetch`, `res.json()` and `window.location.href` are not modelled. The client's reply is an input (`ok`, `error`, `url`), and navigation is the returned outcome.
- A reply whose body cannot be read as JSON is a `TransportFailed` outcome carrying the error's message.
- JSON numbers are integers. A non-string `error` or `url` in a reply is modelled as absent.
- `src/lib/goToCheckout.ts` is modelled only through its request body. Its reply check is the same as that of the cart client, so `ProductSelector.Selector.HandleCheckout` takes the client's outcome as a parameter.
- `useTransition`, the pending flags and the asynchronous order of state updates are not modelled. Each handler is one atomic step.
- Timers are not modelled: the 5-second toast timer, the 60 ms wheel debounce (and its cancelling of an earlier timer), and the layout-settling timeout.
- Animation frames and the `easeInOutCubic` curve are not modelled, and nor is their floating-point arithmetic. An animation is its target, and `FinishAnimation` is the frame that reaches the end.
- Positions and deltas are integers; DOM measurement is not modelled.
- Jumping to `window.location.hash` on mount is not modelled separately. It takes the same `slice(1)` and the same `scrollToId` path as a clicked link.
- Focus moves after a tab change are not modelled, and nor is `preventDefault`. The handlers report whether they handled the event.
- `Intl.NumberFormat` currency text is not modelled.
- Ids from `crypto.randomUUID`, `Date.now` and `Math.random` are arguments. Their freshness is a precondition where a lemma needs it (`Toast.ShowThenDismiss`).
- The `IntersectionObserver` visibility flag of the selector is not modelled.
- Markup, styling and the marketing and static pages are not part of this model.
- Shop.FormatSpec: tier sizes are whole numbers here, so `${spec.value}` is a decimal integer; a fractional size is not modelled.
- SectionScroll.Controller.OnTouchEnd follows the code: while an animation runs, the handler returns before clearing the two touch positions, so they are not reset on every touchend.
- Toast.ToastProvider.Dismiss also stands for the auto-dismiss timer, which runs the same filter with the toast's own id.
