/**
 * The shop page (src/app/shop/page.tsx): format tabs, a tier choice kept per
 * format, a cart of rich entries, and checkout, which collapses the cart
 * into `(priceId, quantity)` pairs and hands them to the cart checkout
 * client.
 */
module Shop {

  import opened Wrappers
  import opened Catalog
  import CartCheckout

  datatype TierUnit = Grams | Millilitres
  datatype TierSpec = TierSpec(value: nat, unit: TierUnit)

  datatype Tier = Tier(id: string, tierLabel: string, price: int, sub: string, spec: TierSpec, recommended: bool)

  datatype Product = Product(
    id: string, name: string, jpName: string, format: Format,
    swatch: string, description: string, shade: string)

  datatype CartItem = CartItem(
    uid: string, productId: string, name: string, jpName: string, format: Format,
    shade: string, tierId: string, tierLabel: string, price: int, priceId: string)

  /** TIERS */
  function Tiers(f: Format): seq<Tier> {
    match f
    case Jar => [
      Tier("sample", "Sample Jar", 18, "Pure structural control", TierSpec(5, Grams), false),
      Tier("studio", "Studio Jar", 58, "Balanced coverage for regular services", TierSpec(25, Grams), false),
      Tier("refill", "Refill Jar", 158, "Designed for high-volume studio use", TierSpec(100, Grams), true)]
    case Bottle => [
      Tier("sample", "Sample Bottle", 14, "Precision application · Try format", TierSpec(5, Millilitres), false),
      Tier("standard", "Standard Bottle", 28, "Daily studio workflow", TierSpec(15, Millilitres), true),
      Tier("studio", "Studio Bottle", 44, "Designed for high-use professional services", TierSpec(30, Millilitres), false)]
  }

  /** PRODUCTS */
  const Products: seq<Product> := [
    Product("clear-jar", "Clear Structure", "クリア", Jar, "rgba(255,255,255,0.92)",
      "Unmatched clarity for color layering and encapsulation.", "clear"),
    Product("milky-jar", "Milky Structure", "ミルキー", Jar, "rgba(252,250,245,1)",
      "Soft diffusion for natural depth and gentle coverage.", "milky"),
    Product("nude-jar", "Nude Structure", "ヌード", Jar, "rgba(228,203,180,0.75)",
      "Warm coverage with a natural finish for studio staples.", "nude"),
    Product("sheer-jar", "Sheer Structure", "シアー", Jar, "rgba(245,235,228,0.85)",
      "A translucent veil for subtle structure and refinement.", "sheer"),
    Product("clear-bottle", "Clear Structure", "クリア", Bottle, "rgba(255,255,255,0.92)",
      "Brush-applied control for consistent structure work.", "clear"),
    Product("milky-bottle", "Milky Structure", "ミルキー", Bottle, "rgba(252,250,245,1)",
      "Soft coverage with workflow speed and brush control.", "milky"),
    Product("nude-bottle", "Nude Structure", "ヌード", Bottle, "rgba(228,203,180,0.75)",
      "Natural warmth in a controlled-flow workflow format.", "nude")
  ]

  /** `Array.prototype.findIndex`: the first index whose element satisfies `p`. */
  function FindFirst<T>(s: seq<T>, p: T -> bool): (r: Option<nat>)
    ensures r.Some? ==> r.value < |s| && p(s[r.value]) && forall j | 0 <= j < r.value :: !p(s[j])
    ensures r.None? ==> forall j | 0 <= j < |s| :: !p(s[j])
  {
    if |s| == 0 then None
    else if p(s[0]) then Some(0)
    else
      match FindFirst(s[1..], p)
      case None => None
      case Some(i) => Some(i + 1)
  }

  /** `tiers.find(t => t.recommended)?.id ?? tiers[0]?.id ?? ""` */
  function GetDefaultTierId(tiers: seq<Tier>): (r: string)
    ensures forall i | 0 <= i < |tiers| && tiers[i].recommended && (forall j | 0 <= j < i :: !tiers[j].recommended) ::
      r == tiers[i].id
    ensures (forall i | 0 <= i < |tiers| :: !tiers[i].recommended) ==>
      r == (if |tiers| > 0 then tiers[0].id else "")
  {
    match FindFirst(tiers, (t: Tier) => t.recommended)
    case Some(i) => tiers[i].id
    case None => if |tiers| > 0 then tiers[0].id else ""
  }

  /** The jar tab opens on the refill tier and the bottle tab on the standard tier. */
  lemma DefaultTiers()
    ensures GetDefaultTierId(Tiers(Jar)) == "refill"
    ensures GetDefaultTierId(Tiers(Bottle)) == "standard"
  {
    assert Tiers(Jar)[2].recommended && !Tiers(Jar)[0].recommended && !Tiers(Jar)[1].recommended;
    assert Tiers(Bottle)[1].recommended && !Tiers(Bottle)[0].recommended;
  }

  /** ProductRow's `tiers.find(t => t.id === selectedTierId) ?? tiers[0]`; `None` disables "Add". */
  function CurrentTier(tiers: seq<Tier>, selectedTierId: string): (r: Option<Tier>)
    ensures r.Some? <==> |tiers| > 0
    ensures forall i | 0 <= i < |tiers| && tiers[i].id == selectedTierId && (forall j | 0 <= j < i :: tiers[j].id != selectedTierId) ::
      r == Some(tiers[i])
    ensures (forall i | 0 <= i < |tiers| :: tiers[i].id != selectedTierId) && |tiers| > 0 ==> r == Some(tiers[0])
  {
    match FindFirst(tiers, (t: Tier) => t.id == selectedTierId)
    case Some(i) => Some(tiers[i])
    case None => if |tiers| > 0 then Some(tiers[0]) else None
  }

  // ---------------------------------------------------------------------
  // The size label: `${label} ${spec.value} ${spec.unit}`
  // ---------------------------------------------------------------------

  function SpecLabel(f: Format): string {
    if f == Jar then "NET WT." else "NET VOL."
  }

  function UnitName(u: TierUnit): string {
    match u
    case Grams => "g"
    case Millilitres => "mL"
  }

  predicate IsDigit(c: char) {
    '0' <= c <= '9'
  }

  /** The decimal rendering of a whole number, as `${n}` prints it. */
  function DecimalString(n: nat): (s: string)
    ensures |s| >= 1 && forall c | c in s :: IsDigit(c)
    decreases n
  {
    var digit := ('0' as int + n % 10) as char;
    if n < 10 then [digit] else DecimalString(n / 10) + [digit]
  }

  /** The number a string of digits denotes. */
  function DecimalValue(s: string): nat
    requires forall c | c in s :: IsDigit(c)
  {
    if s == [] then 0
    else
      var last := s[|s| - 1];
      assert last in s && IsDigit(last);
      DecimalValue(s[..|s| - 1]) * 10 + (last as int - '0' as int)
  }

  lemma {:induction false} DecimalRoundTrip(n: nat)
    ensures DecimalValue(DecimalString(n)) == n
    decreases n
  {
    var s := DecimalString(n);
    if n >= 10 {
      DecimalRoundTrip(n / 10);
      assert s[..|s| - 1] == DecimalString(n / 10);
    }
  }

  /** `formatSpec`: a reader recovers the label, the value and the unit from the text. */
  function FormatSpec(f: Format, spec: TierSpec): (r: string)
    ensures var heading, unit := SpecLabel(f), UnitName(spec.unit);
      && |heading| + 1 + |unit| + 1 < |r|
      && r[..|heading| + 1] == heading + " "
      && r[|r| - |unit| - 1..] == " " + unit
      && (forall c | c in r[|heading| + 1..|r| - |unit| - 1] :: IsDigit(c))
      && DecimalValue(r[|heading| + 1..|r| - |unit| - 1]) == spec.value
  {
    var heading, digits, unit := SpecLabel(f), DecimalString(spec.value), UnitName(spec.unit);
    var front, back := heading + " ", " " + unit;
    var r := front + digits + back;
    DecimalRoundTrip(spec.value);
    assert r[..|front|] == front;
    assert r[|front|..|r| - |back|] == digits;
    assert r[|r| - |back|..] == back;
    assert r == heading + " " + digits + " " + unit;
    r
  }

  // ---------------------------------------------------------------------
  // Price identifiers
  // ---------------------------------------------------------------------

  /** `STRIPE_PRICES[`${shade}_${format}_${tierId}`] ?? ""` */
  function GetStripePriceId(shade: string, format: Format, tierId: string): string {
    Lookup(shade + "_" + FormatName(format) + "_" + tierId).GetOr("")
  }

  /**
   * What the price identifier of a card is: the shade and the tier id must
   * name a catalogue shade and tier, and the (shade, format, tier) entry
   * must be in the catalogue; otherwise the lookup falls back to "".
   */
  lemma GetStripePriceIdMeaning(shade: string, f: Format, tierId: string)
    ensures GetStripePriceId(shade, f, tierId) ==
      match (ShadeOf(shade), TierOf(tierId))
      case (Some(sh), Some(t)) => PriceId(ShadeKey(sh, f, t)).GetOr("")
      case _ => ""
  {
    ParseShadeKeyString(shade, f, tierId);
  }

  /** Every tier the page offers for a format is a catalogue tier of that format. */
  lemma OfferedTiersInCatalog(f: Format, t: Tier)
    requires t in Tiers(f)
    ensures TierOf(t.id).Some?
    ensures TierOf(t.id).value in (if f == Jar then JarTiers else BottleTiers)
  {
  }

  /** Every product names a catalogue shade, and no sheer bottle is sold. */
  lemma ProductShadesInCatalog(p: Product)
    requires p in Products
    ensures ShadeOf(p.shade).Some?
    ensures p.format == Bottle ==> ShadeOf(p.shade).value != Sheer
  {
  }

  /** A catalogue (shade, format, tier) triple resolves to its prefixed key. */
  lemma CatalogTripleResolves(shade: string, f: Format, tierId: string)
    requires ShadeOf(shade).Some? && TierOf(tierId).Some?
    requires InCatalog(ShadeKey(ShadeOf(shade).value, f, TierOf(tierId).value))
    ensures GetStripePriceId(shade, f, tierId) == Prefix + shade + "_" + FormatName(f) + "_" + tierId
  {
    var k := ShadeKey(ShadeOf(shade).value, f, TierOf(tierId).value);
    var key := shade + "_" + FormatName(f) + "_" + tierId;
    ShadeKeyNameOf(shade, f, tierId);
    LookupShadeTriple(shade, f, tierId);
    CatalogKeys(k);
    PriceIdIsPrefixedKey(k);
    assert GetStripePriceId(shade, f, tierId) == Prefix + key;
    PrefixTriple(Prefix, shade, FormatName(f), tierId);
  }

  /** Every (product, tier) pair the page offers resolves to its catalogue entry. */
  lemma OfferedPairsResolve(p: Product, t: Tier)
    requires p in Products && t in Tiers(p.format)
    ensures GetStripePriceId(p.shade, p.format, t.id) == Prefix + p.shade + "_" + FormatName(p.format) + "_" + t.id
    ensures GetStripePriceId(p.shade, p.format, t.id) != ""
  {
    OfferedTiersInCatalog(p.format, t);
    ProductShadesInCatalog(p);
    CatalogTripleResolves(p.shade, p.format, t.id);
  }

  /** The page's default tier selection for both formats. */
  datatype TierSelection = TierSelection(jar: string, bottle: string)
  {
    function Get(f: Format): string {
      match f
      case Jar => jar
      case Bottle => bottle
    }

    /** `setTierSelection(prev => ({ ...prev, [format]: id }))` */
    function Set(f: Format, id: string): (r: TierSelection)
      ensures r.Get(f) == id
      ensures forall g | g != f :: r.Get(g) == Get(g)
    {
      match f
      case Jar => this.(jar := id)
      case Bottle => this.(bottle := id)
    }
  }

  /** The cart entry `addToCart(product, tier)` appends, given the fresh uid. */
  function Entry(product: Product, tier: Tier, uid: string): (item: CartItem)
    ensures item.priceId == GetStripePriceId(product.shade, product.format, tier.id)
    ensures item.price == tier.price && item.tierId == tier.id && item.productId == product.id
  {
    CartItem(uid, product.id, product.name, product.jpName, product.format, product.shade,
      tier.id, tier.tierLabel, tier.price, GetStripePriceId(product.shade, product.format, tier.id))
  }

  /** `cart.reduce((sum, item) => sum + item.price, 0)` */
  function Total(cart: seq<CartItem>): int {
    if cart == [] then 0 else Total(cart[..|cart| - 1]) + cart[|cart| - 1].price
  }

  lemma TotalAppend(cart: seq<CartItem>, item: CartItem)
    ensures Total(cart + [item]) == Total(cart) + item.price
  {
    assert (cart + [item])[..|cart|] == cart;
  }

  // ---------------------------------------------------------------------
  // Aggregation of the cart by price identifier
  // ---------------------------------------------------------------------

  function PriceIds(cart: seq<CartItem>): (ids: seq<string>)
    ensures |ids| == |cart| && forall i | 0 <= i < |cart| :: ids[i] == cart[i].priceId
  {
    seq(|cart|, i requires 0 <= i < |cart| => cart[i].priceId)
  }

  /** The distinct elements of `s`, in order of first occurrence. */
  function Distinct(s: seq<string>): seq<string> {
    if s == [] then []
    else
      var init := s[..|s| - 1];
      if s[|s| - 1] in init then Distinct(init) else Distinct(init) + [s[|s| - 1]]
  }

  function Occurrences(s: seq<string>, x: string): nat {
    if s == [] then 0
    else Occurrences(s[..|s| - 1], x) + (if s[|s| - 1] == x then 1 else 0)
  }

  predicate NoDuplicates(s: seq<string>) {
    forall i, j | 0 <= i < j < |s| :: s[i] != s[j]
  }

  /** Position of the first occurrence of `x` in `s`. */
  function FirstIndex(s: seq<string>, x: string): (i: nat)
    requires x in s
    ensures i < |s| && s[i] == x && x !in s[..i]
  {
    if s[0] == x then 0
    else
      assert x in s[1..];
      var j := FirstIndex(s[1..], x);
      assert s[..j + 1] == [s[0]] + s[1..][..j];
      j + 1
  }

  /**
   * The checkout lines for a cart: one per distinct price identifier, in
   * the order the identifiers first appear, with the number of entries
   * carrying it.
   */
  function Aggregated(cart: seq<CartItem>): seq<CartCheckout.CheckoutItem> {
    var ids := PriceIds(cart);
    var d := Distinct(ids);
    seq(|d|, i requires 0 <= i < |d| => CartCheckout.CheckoutItem(d[i], Occurrences(ids, d[i])))
  }

  lemma OccurrencesAppend(s: seq<string>, y: string, x: string)
    ensures Occurrences(s + [y], x) == Occurrences(s, x) + (if y == x then 1 else 0)
  {
    assert (s + [y])[..|s|] == s;
  }

  lemma {:induction false} OccurrencesPositive(s: seq<string>, x: string)
    ensures x in s <==> Occurrences(s, x) > 0
  {
    if s != [] {
      var init := s[..|s| - 1];
      assert s == init + [s[|s| - 1]];
      OccurrencesPositive(init, x);
    }
  }

  /** `Distinct` keeps every element exactly once. */
  lemma {:induction false} DistinctElements(s: seq<string>)
    ensures forall x :: x in Distinct(s) <==> x in s
    ensures NoDuplicates(Distinct(s))
  {
    if s != [] {
      var init := s[..|s| - 1];
      assert s == init + [s[|s| - 1]];
      DistinctElements(init);
    }
  }

  /** `Distinct` lists identifiers in the order of their first appearance. */
  lemma {:induction false} DistinctInFirstOccurrenceOrder(s: seq<string>, i: nat, j: nat)
    requires i < j < |Distinct(s)|
    ensures Distinct(s)[i] in s && Distinct(s)[j] in s
    ensures FirstIndex(s, Distinct(s)[i]) < FirstIndex(s, Distinct(s)[j])
  {
    DistinctElements(s);
    var d := Distinct(s);
    assert d[i] in d && d[j] in d;
    var init := s[..|s| - 1];
    var last := s[|s| - 1];
    assert s == init + [last];
    DistinctElements(init);
    if last in init || j < |d| - 1 {
      assert d[i] == Distinct(init)[i] && d[j] == Distinct(init)[j];
      DistinctInFirstOccurrenceOrder(init, i, j);
      FirstIndexPrefix(init, last, d[i]);
      FirstIndexPrefix(init, last, d[j]);
    } else {
      assert d[j] == last && last !in init;
      assert d[i] == Distinct(init)[i] && d[i] in Distinct(init);
      FirstIndexPrefix(init, last, d[i]);
      assert FirstIndex(s, d[i]) < |init|;
      FirstIndexLast(init, last);
    }
  }

  lemma FirstIndexPrefix(s: seq<string>, y: string, x: string)
    requires x in s
    ensures x in s + [y] && FirstIndex(s + [y], x) == FirstIndex(s, x)
  {
    var t := s + [y];
    var i := FirstIndex(s, x);
    var k := FirstIndex(t, x);
    assert t[i] == s[i];
    assert forall m | 0 <= m < i :: t[m] == s[m] && s[m] == s[..i][m] && s[..i][m] in s[..i];
    assert forall m | 0 <= m < k :: t[m] == t[..k][m] && t[..k][m] in t[..k];
  }

  lemma FirstIndexLast(s: seq<string>, y: string)
    requires y !in s
    ensures FirstIndex(s + [y], y) == |s|
  {
    var t := s + [y];
    var k := FirstIndex(t, y);
    assert forall m | 0 <= m < |s| :: t[m] == s[m] && s[m] in s;
  }

  /** Sum of the counts of the identifiers in `d` within `s`. */
  function SumOccurrences(d: seq<string>, s: seq<string>): nat {
    if d == [] then 0 else SumOccurrences(d[..|d| - 1], s) + Occurrences(s, d[|d| - 1])
  }

  lemma {:induction false} SumOccurrencesAppend(d: seq<string>, s: seq<string>, y: string)
    ensures SumOccurrences(d, s + [y]) == SumOccurrences(d, s) + Occurrences(d, y)
  {
    if d != [] {
      var init := d[..|d| - 1];
      SumOccurrencesAppend(init, s, y);
      OccurrencesAppend(s, y, d[|d| - 1]);
    }
  }

  lemma {:induction false} OccurrencesOnce(d: seq<string>, y: string)
    requires NoDuplicates(d) && y in d
    ensures Occurrences(d, y) == 1
  {
    var init := d[..|d| - 1];
    assert d == init + [d[|d| - 1]];
    assert NoDuplicates(init);
    if d[|d| - 1] == y {
      assert y !in init;
      OccurrencesPositive(init, y);
    } else {
      OccurrencesOnce(init, y);
    }
  }

  /** The counts over the distinct identifiers add up to the length. */
  lemma {:induction false} SumOverDistinct(s: seq<string>)
    ensures SumOccurrences(Distinct(s), s) == |s|
  {
    if s != [] {
      var init := s[..|s| - 1];
      var last := s[|s| - 1];
      assert s == init + [last];
      SumOverDistinct(init);
      DistinctElements(init);
      var d := Distinct(init);
      SumOccurrencesAppend(d, init, last);
      if last in init {
        OccurrencesOnce(d, last);
      } else {
        OccurrencesPositive(d, last);
        OccurrencesPositive(init, last);
        OccurrencesAppend(init, last, last);
        assert (d + [last])[..|d|] == d;
      }
    }
  }

  /** Sum of the quantities of checkout lines. */
  function TotalQuantity(items: seq<CartCheckout.CheckoutItem>): int {
    if items == [] then 0 else TotalQuantity(items[..|items| - 1]) + items[|items| - 1].quantity
  }

  lemma {:induction false} TotalQuantityOfCounts(d: seq<string>, s: seq<string>)
    ensures TotalQuantity(seq(|d|, i requires 0 <= i < |d| => CartCheckout.CheckoutItem(d[i], Occurrences(s, d[i]))))
      == SumOccurrences(d, s)
  {
    if d != [] {
      var init := d[..|d| - 1];
      TotalQuantityOfCounts(init, s);
      var full := seq(|d|, i requires 0 <= i < |d| => CartCheckout.CheckoutItem(d[i], Occurrences(s, d[i])));
      assert full[..|d| - 1] == seq(|init|, i requires 0 <= i < |init| => CartCheckout.CheckoutItem(init[i], Occurrences(s, init[i])));
    }
  }

  /**
   * The checkout lines name each identifier of the cart once, name nothing
   * else, count every entry, and together account for the whole cart.
   */
  lemma AggregatedLines(cart: seq<CartItem>)
    ensures forall i, j | 0 <= i < j < |Aggregated(cart)| :: Aggregated(cart)[i].priceId != Aggregated(cart)[j].priceId
    ensures forall e | e in cart :: exists l | l in Aggregated(cart) :: l.priceId == e.priceId
    ensures forall l | l in Aggregated(cart) :: l.quantity == Occurrences(PriceIds(cart), l.priceId) >= 1
    ensures forall l | l in Aggregated(cart) :: exists e | e in cart :: e.priceId == l.priceId
    ensures TotalQuantity(Aggregated(cart)) == |cart|
  {
    var ids := PriceIds(cart);
    var d := Distinct(ids);
    var lines := Aggregated(cart);
    DistinctElements(ids);
    forall e | e in cart
      ensures exists l | l in lines :: l.priceId == e.priceId
    {
      var k :| 0 <= k < |cart| && cart[k] == e;
      assert ids[k] in ids;
      var m :| 0 <= m < |d| && d[m] == ids[k];
      assert lines[m] in lines;
    }
    forall l | l in lines
      ensures l.quantity == Occurrences(ids, l.priceId) >= 1
      ensures exists e | e in cart :: e.priceId == l.priceId
    {
      var m :| 0 <= m < |lines| && lines[m] == l;
      assert d[m] in d;
      OccurrencesPositive(ids, d[m]);
      var k :| 0 <= k < |ids| && ids[k] == d[m];
      assert cart[k] in cart;
    }
    TotalQuantityOfCounts(d, ids);
    SumOverDistinct(ids);
  }

  /** A non-empty cart yields at least one checkout line. */
  lemma AggregatedNonEmpty(cart: seq<CartItem>)
    requires cart != []
    ensures Aggregated(cart) != []
  {
    AggregatedLines(cart);
  }

  /**
   * One pass of the counting loop: appending an identifier extends the
   * distinct keys exactly when it is new, and bumps its count.
   */
  lemma AggregateStep(prefix: seq<string>, id: string, keys: seq<string>, counts: map<string, nat>)
    requires keys == Distinct(prefix)
    requires forall k :: k in counts <==> k in keys
    requires forall k | k in counts :: counts[k] == Occurrences(prefix, k)
    ensures (if id in counts then keys else keys + [id]) == Distinct(prefix + [id])
    ensures forall k | k in counts :: Occurrences(prefix + [id], k) == counts[k] + (if id == k then 1 else 0)
    ensures Occurrences(prefix + [id], id) == (if id in counts then counts[id] else 0) + 1
  {
    assert (prefix + [id])[..|prefix|] == prefix;
    DistinctElements(prefix);
    OccurrencesPositive(prefix, id);
    forall k | k in counts
      ensures Occurrences(prefix + [id], k) == counts[k] + (if id == k then 1 else 0)
    {
      OccurrencesAppend(prefix, id, k);
    }
    OccurrencesAppend(prefix, id, id);
  }

  /**
   * The `for (const item of cart)` loop over a `Map`: a key is appended on
   * its first `set`, and later `set`s only change its count. The entries
   * are then mapped, in insertion order, to checkout lines.
   */
  method Aggregate(cart: seq<CartItem>) returns (items: seq<CartCheckout.CheckoutItem>)
    ensures items == Aggregated(cart)
  {
    var ids := PriceIds(cart);
    var keys: seq<string> := [];
    var counts: map<string, nat> := map[];
    for n := 0 to |cart|
      invariant keys == Distinct(ids[..n])
      invariant forall k :: k in counts <==> k in keys
      invariant forall k | k in counts :: counts[k] == Occurrences(ids[..n], k)
    {
      var id := cart[n].priceId;
      assert ids[..n + 1] == ids[..n] + [id];
      AggregateStep(ids[..n], id, keys, counts);
      if id !in counts {
        keys := keys + [id];
      }
      counts := counts[id := (if id in counts then counts[id] else 0) + 1];
    }
    assert ids[..|cart|] == ids;
    assert forall i | 0 <= i < |keys| :: keys[i] in keys;
    items := seq(|keys|, i requires 0 <= i < |keys| => CartCheckout.CheckoutItem(keys[i], counts[keys[i]]));
  }

  /** `PRODUCTS.filter(p => p.format === format)` */
  function ActiveProducts(f: Format): (r: seq<Product>)
    ensures forall p | p in r :: p in Products && p.format == f
    ensures forall p | p in Products && p.format == f :: p in r
  {
    Filter(Products, FormatIs(f))
  }

  /** `p => p.format === format` */
  function FormatIs(f: Format): Product -> bool {
    (p: Product) => p.format == f
  }

  function Filter<T>(s: seq<T>, keep: T -> bool): (r: seq<T>)
    ensures forall x | x in r :: x in s && keep(x)
    ensures forall x | x in s && keep(x) :: x in r
  {
    if s == [] then []
    else (if keep(s[0]) then [s[0]] else []) + Filter(s[1..], keep)
  }

  /** One step of the filter: the head is kept exactly when `keep` holds of it. */
  lemma FilterCons<T>(s: seq<T>, keep: T -> bool)
    requires s != []
    ensures Filter(s, keep) == (if keep(s[0]) then [s[0]] else []) + Filter(s[1..], keep)
  {
  }

  /** Filtering distributes over concatenation: the kept elements stay in order. */
  lemma {:induction false} FilterAppend<T>(a: seq<T>, b: seq<T>, keep: T -> bool)
    ensures Filter(a + b, keep) == Filter(a, keep) + Filter(b, keep)
  {
    if a == [] {
      assert a + b == b;
    } else {
      var head := if keep(a[0]) then [a[0]] else [];
      calc {
        Filter(a + b, keep);
        { assert (a + b)[0] == a[0] && (a + b)[1..] == a[1..] + b; FilterCons(a + b, keep); }
        head + Filter(a[1..] + b, keep);
        { FilterAppend(a[1..], b, keep); }
        head + (Filter(a[1..], keep) + Filter(b, keep));
        (head + Filter(a[1..], keep)) + Filter(b, keep);
        { FilterCons(a, keep); }
        Filter(a, keep) + Filter(b, keep);
      }
    }
  }

  /** A filter that keeps every element returns the sequence itself. */
  lemma {:induction false} FilterAll<T>(s: seq<T>, keep: T -> bool)
    requires forall i | 0 <= i < |s| :: keep(s[i])
    ensures Filter(s, keep) == s
  {
    if s != [] {
      FilterCons(s, keep);
      FilterAll(s[1..], keep);
    }
  }

  /** A filter that keeps no element returns nothing. */
  lemma {:induction false} FilterNone<T>(s: seq<T>, keep: T -> bool)
    requires forall i | 0 <= i < |s| :: !keep(s[i])
    ensures Filter(s, keep) == []
  {
    if s != [] {
      FilterCons(s, keep);
      FilterNone(s[1..], keep);
    }
  }

  /** A filter that keeps all of `a` and none of `b` returns `a`. */
  lemma FilterKeepsPrefix<T>(a: seq<T>, b: seq<T>, keep: T -> bool)
    requires forall i | 0 <= i < |a| :: keep(a[i])
    requires forall i | 0 <= i < |b| :: !keep(b[i])
    ensures Filter(a + b, keep) == a
  {
    FilterAppend(a, b, keep);
    FilterAll(a, keep);
    FilterNone(b, keep);
  }

  /** A filter that keeps none of `a` and all of `b` returns `b`. */
  lemma FilterKeepsSuffix<T>(a: seq<T>, b: seq<T>, keep: T -> bool)
    requires forall i | 0 <= i < |a| :: !keep(a[i])
    requires forall i | 0 <= i < |b| :: keep(b[i])
    ensures Filter(a + b, keep) == b
  {
    FilterAppend(a, b, keep);
    FilterNone(a, keep);
    FilterAll(b, keep);
  }

  /** The table lists the four jars first and then the three bottles. */
  lemma ProductFormats()
    ensures |Products| == 7
    ensures forall i | 0 <= i < 4 :: Products[i].format == Jar
    ensures forall i | 4 <= i < 7 :: Products[i].format == Bottle
  {
  }

  /** The jar tab lists the four jar products, in table order and each once. */
  lemma JarProductsInOrder()
    ensures ActiveProducts(Jar) == Products[..4]
  {
    ProductFormats();
    var jars, bottles := Products[..4], Products[4..];
    assert Products == jars + bottles;
    FilterKeepsPrefix(jars, bottles, FormatIs(Jar));
  }

  /** The bottle tab lists the three bottle products, in table order and each once. */
  lemma BottleProductsInOrder()
    ensures ActiveProducts(Bottle) == Products[4..]
  {
    ProductFormats();
    var jars, bottles := Products[..4], Products[4..];
    assert Products == jars + bottles;
    FilterKeepsSuffix(jars, bottles, FormatIs(Bottle));
  }

  /** The other format: where an arrow key on the tab list moves to. */
  function Other(f: Format): (g: Format)
    ensures g != f
  {
    if f == Jar then Bottle else Jar
  }

  /** The cart checkout outcome as the page sees it: an error message, or a navigation. */
  function CheckoutError(outcome: CartCheckout.Outcome): Option<string> {
    match outcome
    case Thrown(message) => Some(message)
    case Navigate(_) => None
  }

  /**
   * The page state: the visible format tab, the cart, the error banner and
   * the tier chosen for each format.
   */
  class ShopPage {
    var format: Format
    var cart: seq<CartItem>
    var error: Option<string>
    var tierSelection: TierSelection

    constructor ()
      ensures format == Jar && cart == [] && error == None
      ensures tierSelection == TierSelection("refill", "standard")
    {
      DefaultTiers();
      format := Jar;
      cart := [];
      error := None;
      tierSelection := TierSelection(GetDefaultTierId(Tiers(Jar)), GetDefaultTierId(Tiers(Bottle)));
    }

    /** `cartTotal` */
    function CartTotal(): int
      reads this
    {
      Total(cart)
    }

    /** `cartCount` */
    function CartCount(): nat
      reads this
    {
      |cart|
    }

    /** Clicking a tier of a format records it for that format only. */
    method SelectTier(f: Format, id: string)
      modifies this
      ensures tierSelection.Get(f) == id
      ensures tierSelection.Get(Other(f)) == old(tierSelection.Get(Other(f)))
      ensures format == old(format) && cart == old(cart) && error == old(error)
    {
      tierSelection := tierSelection.Set(f, id);
    }

    /** Clicking a tab (`setFormatAndFocus`); the tier choices are kept. */
    method SetFormat(next: Format)
      modifies this
      ensures format == next
      ensures cart == old(cart) && error == old(error) && tierSelection == old(tierSelection)
    {
      format := next;
    }

    /**
     * Keyboard handling on the tab list: ArrowLeft and ArrowRight step
     * through `["jar", "bottle"]` cyclically; any other key is ignored.
     */
    method OnTabKeyDown(key: string) returns (handled: bool)
      modifies this
      ensures handled <==> key == "ArrowLeft" || key == "ArrowRight"
      ensures format == if handled then Other(old(format)) else old(format)
      ensures cart == old(cart) && error == old(error) && tierSelection == old(tierSelection)
    {
      if key != "ArrowLeft" && key != "ArrowRight" {
        return false;
      }
      var order := [Jar, Bottle];
      var idx := if format == Jar then 0 else 1;
      var nextIdx := if key == "ArrowRight" then (idx + 1) % |order| else (idx - 1 + |order|) % |order|;
      format := order[nextIdx];
      return true;
    }

    /** `addToCart(product, tier)`, given the fresh `uid`. */
    method AddToCart(product: Product, tier: Tier, uid: string)
      modifies this
      ensures cart == old(cart) + [Entry(product, tier, uid)]
      ensures error == None
      ensures CartTotal() == old(CartTotal()) + tier.price
      ensures CartCount() == old(CartCount()) + 1
      ensures format == old(format) && tierSelection == old(tierSelection)
    {
      TotalAppend(cart, Entry(product, tier, uid));
      cart := cart + [Entry(product, tier, uid)];
      error := None;
    }

    /**
     * `handleCheckout`: nothing happens on an empty cart; otherwise the
     * error is cleared, the cart is aggregated by price identifier and sent
     * to the cart checkout client, whose thrown message becomes the error.
     * The cart itself is never emptied. `navigation` is where the browser
     * is sent, if anywhere.
     */
    method HandleCheckout(respond: CartCheckout.Request -> CartCheckout.Response)
      returns (navigation: Option<string>)
      modifies this
      ensures old(cart) == [] ==> error == old(error) && navigation == None
      ensures old(cart) != [] ==>
        var outcome := CartCheckout.GoToCartCheckout(Aggregated(cart), respond);
        error == CheckoutError(outcome) &&
        navigation == (if outcome.Navigate? then Some(outcome.url) else None)
      ensures cart == old(cart) && format == old(format) && tierSelection == old(tierSelection)
    {
      if |cart| == 0 {
        return None;
      }
      error := None;
      var items := Aggregate(cart);
      var outcome := CartCheckout.GoToCartCheckout(items, respond);
      match outcome
      case Thrown(message) =>
        error := Some(message);
        navigation := None;
      case Navigate(url) =>
        navigation := Some(url);
    }
  }

  /** The page never reaches the client's empty-cart error. */
  lemma CheckoutNeverSendsEmptyCart(cart: seq<CartItem>, respond: CartCheckout.Request -> CartCheckout.Response)
    requires cart != []
    ensures CartCheckout.GoToCartCheckout(Aggregated(cart), respond) ==
      CartCheckout.Classify(respond(CartCheckout.CartRequest(Aggregated(cart))))
  {
    AggregatedNonEmpty(cart);
  }
}
