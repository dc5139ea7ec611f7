/**
 * The static price catalog (src/lib/stripePrices.ts).
 *
 * The source is one object literal whose keys are strings of the form
 * `format_tier` (legacy, tier-only) or `shade_format_tier` (per shade) and
 * whose values are opaque provider price identifiers.  Here a key is a
 * `PriceKey` value, `KeyName` renders it as the source's string, `ParseKey`
 * reads such a string back, and `Lookup` is indexing the object with a string.
 */
module Catalog {

  import opened Wrappers

  datatype Format = Jar | Bottle
  datatype Shade = Clear | Milky | Nude | Sheer
  datatype TierId = Sample | Studio | Refill | Standard

  datatype PriceKey =
    | LegacyKey(format: Format, tier: TierId)
    | ShadeKey(shade: Shade, format: Format, tier: TierId)

  /** Every placeholder price identifier starts with this. */
  const Prefix: string := "PLACEHOLDER_"

  /** The separator between the parts of a key. */
  const Sep: char := '_'

  function FormatName(f: Format): string {
    match f
    case Jar => "jar"
    case Bottle => "bottle"
  }

  function ShadeName(s: Shade): string {
    match s
    case Clear => "clear"
    case Milky => "milky"
    case Nude => "nude"
    case Sheer => "sheer"
  }

  function TierName(t: TierId): string {
    match t
    case Sample => "sample"
    case Studio => "studio"
    case Refill => "refill"
    case Standard => "standard"
  }

  /** The object key of the source for a catalog entry. */
  function KeyName(k: PriceKey): string {
    match k
    case LegacyKey(f, t) => FormatName(f) + "_" + TierName(t)
    case ShadeKey(s, f, t) => ShadeName(s) + "_" + FormatName(f) + "_" + TierName(t)
  }

  /**
   * The STRIPE_PRICES object literal, entry for entry: the identifier stored
   * under a key, or `None` when the object has no such key.
   */
  function PriceId(k: PriceKey): Option<string> {
    match k
    // legacy, tier-only: jar
    case LegacyKey(Jar, Sample) => Some("PLACEHOLDER_jar_sample")
    case LegacyKey(Jar, Studio) => Some("PLACEHOLDER_jar_studio")
    case LegacyKey(Jar, Refill) => Some("PLACEHOLDER_jar_refill")
    // legacy, tier-only: bottle
    case LegacyKey(Bottle, Sample) => Some("PLACEHOLDER_bottle_sample")
    case LegacyKey(Bottle, Standard) => Some("PLACEHOLDER_bottle_standard")
    case LegacyKey(Bottle, Studio) => Some("PLACEHOLDER_bottle_studio")
    // per shade: jar
    case ShadeKey(Clear, Jar, Sample) => Some("PLACEHOLDER_clear_jar_sample")
    case ShadeKey(Clear, Jar, Studio) => Some("PLACEHOLDER_clear_jar_studio")
    case ShadeKey(Clear, Jar, Refill) => Some("PLACEHOLDER_clear_jar_refill")
    case ShadeKey(Milky, Jar, Sample) => Some("PLACEHOLDER_milky_jar_sample")
    case ShadeKey(Milky, Jar, Studio) => Some("PLACEHOLDER_milky_jar_studio")
    case ShadeKey(Milky, Jar, Refill) => Some("PLACEHOLDER_milky_jar_refill")
    case ShadeKey(Nude, Jar, Sample) => Some("PLACEHOLDER_nude_jar_sample")
    case ShadeKey(Nude, Jar, Studio) => Some("PLACEHOLDER_nude_jar_studio")
    case ShadeKey(Nude, Jar, Refill) => Some("PLACEHOLDER_nude_jar_refill")
    case ShadeKey(Sheer, Jar, Sample) => Some("PLACEHOLDER_sheer_jar_sample")
    case ShadeKey(Sheer, Jar, Studio) => Some("PLACEHOLDER_sheer_jar_studio")
    case ShadeKey(Sheer, Jar, Refill) => Some("PLACEHOLDER_sheer_jar_refill")
    // per shade: bottle
    case ShadeKey(Clear, Bottle, Sample) => Some("PLACEHOLDER_clear_bottle_sample")
    case ShadeKey(Clear, Bottle, Standard) => Some("PLACEHOLDER_clear_bottle_standard")
    case ShadeKey(Clear, Bottle, Studio) => Some("PLACEHOLDER_clear_bottle_studio")
    case ShadeKey(Milky, Bottle, Sample) => Some("PLACEHOLDER_milky_bottle_sample")
    case ShadeKey(Milky, Bottle, Standard) => Some("PLACEHOLDER_milky_bottle_standard")
    case ShadeKey(Milky, Bottle, Studio) => Some("PLACEHOLDER_milky_bottle_studio")
    case ShadeKey(Nude, Bottle, Sample) => Some("PLACEHOLDER_nude_bottle_sample")
    case ShadeKey(Nude, Bottle, Standard) => Some("PLACEHOLDER_nude_bottle_standard")
    case ShadeKey(Nude, Bottle, Studio) => Some("PLACEHOLDER_nude_bottle_studio")
    case _ => None
  }

  const JarTiers: set<TierId> := {Sample, Studio, Refill}
  const BottleTiers: set<TierId> := {Sample, Standard, Studio}

  /**
   * The keys of the object, described by their parts: the legacy keys are
   * `jar_{sample,studio,refill}` and `bottle_{sample,standard,studio}`; every
   * shade has the three jar tiers; every shade but sheer has the three bottle
   * tiers.  That is 6 + 4 * 3 + 3 * 3 = 27 keys.
   */
  predicate InCatalog(k: PriceKey) {
    match k
    case LegacyKey(Jar, t) => t in JarTiers
    case LegacyKey(Bottle, t) => t in BottleTiers
    case ShadeKey(_, Jar, t) => t in JarTiers
    case ShadeKey(s, Bottle, t) => s != Sheer && t in BottleTiers
  }

  lemma CatalogKeys(k: PriceKey)
    ensures PriceId(k).Some? <==> InCatalog(k)
  {
  }

  // ---------------------------------------------------------------------
  // Reading a key string back into its parts
  // ---------------------------------------------------------------------

  function FormatOf(s: string): (r: Option<Format>)
    ensures forall f :: r == Some(f) <==> s == FormatName(f)
  {
    if s == "jar" then Some(Jar)
    else if s == "bottle" then Some(Bottle)
    else None
  }

  function ShadeOf(s: string): (r: Option<Shade>)
    ensures forall sh :: r == Some(sh) <==> s == ShadeName(sh)
  {
    if s == "clear" then Some(Clear)
    else if s == "milky" then Some(Milky)
    else if s == "nude" then Some(Nude)
    else if s == "sheer" then Some(Sheer)
    else None
  }

  function TierOf(s: string): (r: Option<TierId>)
    ensures forall t :: r == Some(t) <==> s == TierName(t)
  {
    if s == "sample" then Some(Sample)
    else if s == "studio" then Some(Studio)
    else if s == "refill" then Some(Refill)
    else if s == "standard" then Some(Standard)
    else None
  }

  /** Position of the first separator in `s`. */
  function IndexOfSep(s: string): (i: nat)
    requires Sep in s
    ensures i < |s| && s[i] == Sep && Sep !in s[..i]
  {
    if s[0] == Sep then 0
    else
      var j := IndexOfSep(s[1..]);
      assert s[..j + 1] == [s[0]] + s[1..][..j];
      j + 1
  }

  /**
   * The parts of a key string between its `_` separators. The source never
   * splits a string; this is how the model reads a key string back into a
   * `PriceKey`, so that indexing the table with a string can be stated.
   */
  function Split(s: string): (parts: seq<string>)
    ensures |parts| >= 1
    decreases |s|
  {
    if Sep !in s then [s]
    else
      var i := IndexOfSep(s);
      [s[..i]] + Split(s[i + 1..])
  }

  /** The parts put back together with `_` between them: the inverse of `Split`. */
  function Join(parts: seq<string>): string
    requires |parts| >= 1
  {
    if |parts| == 1 then parts[0] else parts[0] + "_" + Join(parts[1..])
  }

  /** Joining a head onto a non-empty list puts one separator after it. */
  lemma JoinCons(head: string, rest: seq<string>)
    requires |rest| >= 1
    ensures Join([head] + rest) == head + "_" + Join(rest)
  {
    assert ([head] + rest)[1..] == rest;
  }

  /** Where the pieces of `a + "_" + b` sit. */
  lemma SepConcat(a: string, b: string)
    ensures (a + "_" + b)[..|a|] == a
    ensures (a + "_" + b)[|a|] == Sep
    ensures (a + "_" + b)[|a| + 1..] == b
  {
  }

  /** Splitting at the first separator. */
  lemma SplitAt(s: string)
    requires Sep in s
    ensures Split(s) == [s[..IndexOfSep(s)]] + Split(s[IndexOfSep(s) + 1..])
  {
  }

  /** A string is the parts around a separator, joined again. */
  lemma AroundSep(s: string, i: nat)
    requires i < |s| && s[i] == Sep
    ensures s == s[..i] + "_" + s[i + 1..]
  {
  }

  lemma {:induction false} JoinSplit(s: string)
    ensures Join(Split(s)) == s
    decreases |s|
  {
    if Sep in s {
      var i := IndexOfSep(s);
      var rest := s[i + 1..];
      SplitAt(s);
      AroundSep(s, i);
      calc {
        Join(Split(s));
        Join([s[..i]] + Split(rest));
        { JoinCons(s[..i], Split(rest)); }
        s[..i] + "_" + Join(Split(rest));
        { JoinSplit(rest); }
        s[..i] + "_" + rest;
        s;
      }
    }
  }

  lemma {:induction false} SplitJoin(parts: seq<string>)
    requires |parts| >= 1
    requires forall p | p in parts :: Sep !in p
    ensures Split(Join(parts)) == parts
  {
    if |parts| > 1 {
      var head, rest := parts[0], parts[1..];
      assert parts == [head] + rest;
      assert head in parts;
      assert forall p | p in rest :: p in parts;
      JoinCons(head, rest);
      var s := head + "_" + Join(rest);
      SepConcat(head, Join(rest));
      IndexOfSepAt(s, |head|);
      SplitAt(s);
      SplitJoin(rest);
    }
  }

  /** No part of a split holds a separator. */
  lemma {:induction false} SplitPartsHaveNoSep(s: string)
    ensures forall p | p in Split(s) :: Sep !in p
    decreases |s|
  {
    if Sep in s {
      var i := IndexOfSep(s);
      SplitAt(s);
      SplitPartsHaveNoSep(s[i + 1..]);
    }
  }

  /** A string splits into one part exactly when it holds no separator. */
  lemma SplitSingle(s: string)
    ensures Sep !in s <==> |Split(s)| == 1
    ensures Sep !in s ==> Split(s) == [s]
  {
    if Sep in s {
      SplitAt(s);
    }
  }

  /** The first separator is the one with no separator before it. */
  lemma IndexOfSepAt(s: string, k: nat)
    requires k < |s| && s[k] == Sep && Sep !in s[..k]
    ensures IndexOfSep(s) == k
  {
    var i := IndexOfSep(s);
    assert forall j | 0 <= j < k :: s[j] == s[..k][j] && s[..k][j] in s[..k];
    assert forall j | 0 <= j < i :: s[j] == s[..i][j] && s[..i][j] in s[..i];
  }

  /** Splitting `a + "_" + b` splits `a` and `b` separately. */
  lemma {:induction false} SplitConcat(a: string, b: string)
    ensures Split(a + "_" + b) == Split(a) + Split(b)
    decreases |a|
  {
    if Sep !in a {
      SplitConcatNoSep(a, b);
    } else {
      var s := a + "_" + b;
      var k := IndexOfSep(a);
      var tail := a[k + 1..];
      calc {
        Split(s);
        { assert s[..k] == a[..k]; IndexOfSepAt(s, k); SplitAt(s); }
        [s[..k]] + Split(s[k + 1..]);
        { assert s[..k] == a[..k]; assert s[k + 1..] == tail + "_" + b; }
        [a[..k]] + Split(tail + "_" + b);
        { SplitConcat(tail, b); }
        [a[..k]] + (Split(tail) + Split(b));
        ([a[..k]] + Split(tail)) + Split(b);
        { SplitAt(a); }
        Split(a) + Split(b);
      }
    }
  }

  /** The base case: `a` is the first part. */
  lemma SplitConcatNoSep(a: string, b: string)
    requires Sep !in a
    ensures Split(a + "_" + b) == [a] + Split(b)
  {
    var s := a + "_" + b;
    assert s[..|a|] == a;
    IndexOfSepAt(s, |a|);
    assert s[|a| + 1..] == b;
  }

  /** Reads a key string back into its parts; `None` for a string of any other form. */
  function ParseKey(s: string): Option<PriceKey> {
    var parts := Split(s);
    if |parts| == 2 then
      match (FormatOf(parts[0]), TierOf(parts[1]))
      case (Some(f), Some(t)) => Some(LegacyKey(f, t))
      case _ => None
    else if |parts| == 3 then
      match (ShadeOf(parts[0]), FormatOf(parts[1]), TierOf(parts[2]))
      case (Some(sh), Some(f), Some(t)) => Some(ShadeKey(sh, f, t))
      case _ => None
    else None
  }

  lemma NamesHaveNoSep(k: PriceKey)
    ensures Sep !in FormatName(k.format) && Sep !in TierName(k.tier)
    ensures k.ShadeKey? ==> Sep !in ShadeName(k.shade)
  {
  }

  /** Parsing a rendered key gives the key back. */
  lemma ParseKeyName(k: PriceKey)
    ensures ParseKey(KeyName(k)) == Some(k)
  {
    NamesHaveNoSep(k);
    match k
    case LegacyKey(f, t) =>
      var parts := [FormatName(f), TierName(t)];
      assert Join(parts) == KeyName(k);
      SplitJoin(parts);
    case ShadeKey(sh, f, t) =>
      var parts := [ShadeName(sh), FormatName(f), TierName(t)];
      assert Join(parts[1..]) == FormatName(f) + "_" + TierName(t);
      assert Join(parts) == KeyName(k);
      SplitJoin(parts);
  }

  /** A string that parses is the rendering of what it parses to. */
  lemma KeyNameOfParse(s: string)
    requires ParseKey(s).Some?
    ensures KeyName(ParseKey(s).value) == s
  {
    JoinSplit(s);
    if |Split(s)| == 2 {
      LegacyKeyNameOfParse(s);
    } else {
      ShadeKeyNameOfParse(s);
    }
  }

  /** Joining two parts. */
  lemma JoinTwo(a: string, b: string)
    ensures Join([a, b]) == a + "_" + b
  {
    assert [a, b][1..] == [b];
  }

  /** Joining three parts. */
  lemma JoinThree(a: string, b: string, c: string)
    ensures Join([a, b, c]) == a + "_" + b + "_" + c
  {
    assert [a, b, c][1..] == [b, c];
    JoinTwo(b, c);
  }

  lemma LegacyKeyNameOfParse(s: string)
    requires ParseKey(s).Some? && |Split(s)| == 2
    requires Join(Split(s)) == s
    ensures KeyName(ParseKey(s).value) == s
  {
    var parts := Split(s);
    var f, t := FormatOf(parts[0]).value, TierOf(parts[1]).value;
    assert ParseKey(s).value == LegacyKey(f, t);
    assert parts == [parts[0], parts[1]];
    JoinTwo(parts[0], parts[1]);
  }

  lemma ShadeKeyNameOfParse(s: string)
    requires ParseKey(s).Some? && |Split(s)| != 2
    requires Join(Split(s)) == s
    ensures KeyName(ParseKey(s).value) == s
  {
    var parts := Split(s);
    assert |parts| == 3;
    var sh, f, t := ShadeOf(parts[0]).value, FormatOf(parts[1]).value, TierOf(parts[2]).value;
    assert ParseKey(s).value == ShadeKey(sh, f, t);
    assert parts == [parts[0], parts[1], parts[2]];
    JoinThree(parts[0], parts[1], parts[2]);
  }

  /** Keys render to distinct strings. */
  lemma KeyNameInjective(k1: PriceKey, k2: PriceKey)
    ensures KeyName(k1) == KeyName(k2) <==> k1 == k2
  {
    ParseKeyName(k1);
    ParseKeyName(k2);
  }

  /**
   * `STRIPE_PRICES[key]` for a string of the key form `a_b` or `a_b_c`: the
   * entry of the key it names, if any. Strings naming an inherited object
   * member (`toString`, `constructor`) are not of that form; see the notes.
   */
  function Lookup(key: string): Option<string> {
    match ParseKey(key)
    case Some(k) => PriceId(k)
    case None => None
  }

  /** The parts of `a + "_" + b + "_" + c` are those of `a`, `b` and `c`. */
  lemma SplitThree(a: string, b: string, c: string)
    ensures Split(a + "_" + b + "_" + c) == Split(a) + Split(b) + Split(c)
  {
    SplitConcat(a + "_" + b, c);
    SplitConcat(a, b);
  }

  /**
   * Parsing `shade + "_" + format + "_" + tier`: it names a per-shade key
   * exactly when the shade and tier strings are catalogue names.
   */
  lemma ParseShadeKeyString(shade: string, f: Format, tierId: string)
    ensures ParseKey(shade + "_" + FormatName(f) + "_" + tierId) ==
      if ShadeOf(shade).Some? && TierOf(tierId).Some? then Some(ShadeKey(ShadeOf(shade).value, f, TierOf(tierId).value))
      else None
  {
    var parts := Split(shade + "_" + FormatName(f) + "_" + tierId);
    SplitThree(shade, FormatName(f), tierId);
    NamesHaveNoSep(LegacyKey(f, Sample));
    SplitSingle(FormatName(f));
    SplitSingle(shade);
    SplitSingle(tierId);
    if |parts| == 3 {
      assert parts == [shade, FormatName(f), tierId];
      assert FormatOf(parts[1]) == Some(f);
    } else {
      ShadeTierHaveNoSep(shade, tierId);
    }
  }

  lemma ConcatAssoc(x: string, y: string, z: string)
    ensures x + (y + z) == (x + y) + z
  {
  }

  /** Prefixing a three-part key string, regrouped. */
  lemma PrefixTriple(p: string, a: string, b: string, c: string)
    ensures p + (a + "_" + b + "_" + c) == p + a + "_" + b + "_" + c
  {
    ConcatAssoc(p, a + "_" + b + "_", c);
    ConcatAssoc(p, a + "_" + b, "_");
    ConcatAssoc(p, a + "_", b);
    ConcatAssoc(p, a, "_");
  }

  /** A per-shade key named by catalogue strings renders back to those strings. */
  lemma ShadeKeyNameOf(shade: string, f: Format, tierId: string)
    requires ShadeOf(shade).Some? && TierOf(tierId).Some?
    ensures KeyName(ShadeKey(ShadeOf(shade).value, f, TierOf(tierId).value)) == shade + "_" + FormatName(f) + "_" + tierId
  {
    assert ShadeName(ShadeOf(shade).value) == shade;
    assert TierName(TierOf(tierId).value) == tierId;
  }

  /** Looking up such a string finds the entry of the key it names. */
  lemma LookupShadeTriple(shade: string, f: Format, tierId: string)
    requires ShadeOf(shade).Some? && TierOf(tierId).Some?
    ensures Lookup(shade + "_" + FormatName(f) + "_" + tierId) == PriceId(ShadeKey(ShadeOf(shade).value, f, TierOf(tierId).value))
  {
    ParseShadeKeyString(shade, f, tierId);
  }

  lemma ShadeTierHaveNoSep(shade: string, tierId: string)
    ensures ShadeOf(shade).Some? ==> Sep !in shade
    ensures TierOf(tierId).Some? ==> Sep !in tierId
  {
  }

  /** Indexing with the rendering of a key finds that key's entry. */
  lemma LookupKeyName(k: PriceKey)
    ensures Lookup(KeyName(k)) == PriceId(k)
  {
    ParseKeyName(k);
  }

  /** A lookup only succeeds on a string that is the rendering of a catalog key. */
  lemma LookupHit(key: string)
    requires Lookup(key).Some?
    ensures ParseKey(key).Some? && InCatalog(ParseKey(key).value)
    ensures KeyName(ParseKey(key).value) == key
  {
    KeyNameOfParse(key);
    CatalogKeys(ParseKey(key).value);
  }

  // ---------------------------------------------------------------------
  // The identifiers themselves
  // ---------------------------------------------------------------------

  /** Each entry, written out, is the prefix followed by its own key. */
  lemma LegacyJarSamplePrefixed()
    ensures PriceId(LegacyKey(Jar, Sample)) == Some(Prefix + KeyName(LegacyKey(Jar, Sample)))
  {
    assert KeyName(LegacyKey(Jar, Sample)) == "jar" + "_" + "sample";
    assert Prefix + ("jar" + "_" + "sample") == "PLACEHOLDER_jar_sample";
  }

  lemma LegacyJarStudioPrefixed()
    ensures PriceId(LegacyKey(Jar, Studio)) == Some(Prefix + KeyName(LegacyKey(Jar, Studio)))
  {
    assert KeyName(LegacyKey(Jar, Studio)) == "jar" + "_" + "studio";
    assert Prefix + ("jar" + "_" + "studio") == "PLACEHOLDER_jar_studio";
  }

  lemma LegacyJarRefillPrefixed()
    ensures PriceId(LegacyKey(Jar, Refill)) == Some(Prefix + KeyName(LegacyKey(Jar, Refill)))
  {
    assert KeyName(LegacyKey(Jar, Refill)) == "jar" + "_" + "refill";
    assert Prefix + ("jar" + "_" + "refill") == "PLACEHOLDER_jar_refill";
  }

  /** The legacy jar entries, one tier at a time. */
  lemma LegacyJarPrefixed(t: TierId)
    requires PriceId(LegacyKey(Jar, t)).Some?
    ensures PriceId(LegacyKey(Jar, t)).value == Prefix + KeyName(LegacyKey(Jar, t))
  {
    match t
    case Sample => LegacyJarSamplePrefixed();
    case Studio => LegacyJarStudioPrefixed();
    case Refill => LegacyJarRefillPrefixed();
    case _ =>
  }

  lemma LegacyBottleSamplePrefixed()
    ensures PriceId(LegacyKey(Bottle, Sample)) == Some(Prefix + KeyName(LegacyKey(Bottle, Sample)))
  {
    assert KeyName(LegacyKey(Bottle, Sample)) == "bottle" + "_" + "sample";
    assert Prefix + ("bottle" + "_" + "sample") == "PLACEHOLDER_bottle_sample";
  }

  lemma LegacyBottleStandardPrefixed()
    ensures PriceId(LegacyKey(Bottle, Standard)) == Some(Prefix + KeyName(LegacyKey(Bottle, Standard)))
  {
    assert KeyName(LegacyKey(Bottle, Standard)) == "bottle" + "_" + "standard";
    assert Prefix + ("bottle" + "_" + "standard") == "PLACEHOLDER_bottle_standard";
  }

  lemma LegacyBottleStudioPrefixed()
    ensures PriceId(LegacyKey(Bottle, Studio)) == Some(Prefix + KeyName(LegacyKey(Bottle, Studio)))
  {
    assert KeyName(LegacyKey(Bottle, Studio)) == "bottle" + "_" + "studio";
    assert Prefix + ("bottle" + "_" + "studio") == "PLACEHOLDER_bottle_studio";
  }

  /** The legacy bottle entries, one tier at a time. */
  lemma LegacyBottlePrefixed(t: TierId)
    requires PriceId(LegacyKey(Bottle, t)).Some?
    ensures PriceId(LegacyKey(Bottle, t)).value == Prefix + KeyName(LegacyKey(Bottle, t))
  {
    match t
    case Sample => LegacyBottleSamplePrefixed();
    case Standard => LegacyBottleStandardPrefixed();
    case Studio => LegacyBottleStudioPrefixed();
    case _ =>
  }

  lemma ClearJarSamplePrefixed()
    ensures PriceId(ShadeKey(Clear, Jar, Sample)) == Some(Prefix + KeyName(ShadeKey(Clear, Jar, Sample)))
  {
    assert KeyName(ShadeKey(Clear, Jar, Sample)) == "clear" + "_" + "jar" + "_" + "sample";
    assert Prefix + ("clear" + "_" + "jar" + "_" + "sample") == "PLACEHOLDER_clear_jar_sample";
  }

  lemma ClearJarStudioPrefixed()
    ensures PriceId(ShadeKey(Clear, Jar, Studio)) == Some(Prefix + KeyName(ShadeKey(Clear, Jar, Studio)))
  {
    assert KeyName(ShadeKey(Clear, Jar, Studio)) == "clear" + "_" + "jar" + "_" + "studio";
    assert Prefix + ("clear" + "_" + "jar" + "_" + "studio") == "PLACEHOLDER_clear_jar_studio";
  }

  lemma ClearJarRefillPrefixed()
    ensures PriceId(ShadeKey(Clear, Jar, Refill)) == Some(Prefix + KeyName(ShadeKey(Clear, Jar, Refill)))
  {
    assert KeyName(ShadeKey(Clear, Jar, Refill)) == "clear" + "_" + "jar" + "_" + "refill";
    assert Prefix + ("clear" + "_" + "jar" + "_" + "refill") == "PLACEHOLDER_clear_jar_refill";
  }

  /** The clear jar entries, one tier at a time. */
  lemma ClearJarPrefixed(t: TierId)
    requires PriceId(ShadeKey(Clear, Jar, t)).Some?
    ensures PriceId(ShadeKey(Clear, Jar, t)).value == Prefix + KeyName(ShadeKey(Clear, Jar, t))
  {
    match t
    case Sample => ClearJarSamplePrefixed();
    case Studio => ClearJarStudioPrefixed();
    case Refill => ClearJarRefillPrefixed();
    case _ =>
  }

  lemma MilkyJarSamplePrefixed()
    ensures PriceId(ShadeKey(Milky, Jar, Sample)) == Some(Prefix + KeyName(ShadeKey(Milky, Jar, Sample)))
  {
    assert KeyName(ShadeKey(Milky, Jar, Sample)) == "milky" + "_" + "jar" + "_" + "sample";
    assert Prefix + ("milky" + "_" + "jar" + "_" + "sample") == "PLACEHOLDER_milky_jar_sample";
  }

  lemma MilkyJarStudioPrefixed()
    ensures PriceId(ShadeKey(Milky, Jar, Studio)) == Some(Prefix + KeyName(ShadeKey(Milky, Jar, Studio)))
  {
    assert KeyName(ShadeKey(Milky, Jar, Studio)) == "milky" + "_" + "jar" + "_" + "studio";
    assert Prefix + ("milky" + "_" + "jar" + "_" + "studio") == "PLACEHOLDER_milky_jar_studio";
  }

  lemma MilkyJarRefillPrefixed()
    ensures PriceId(ShadeKey(Milky, Jar, Refill)) == Some(Prefix + KeyName(ShadeKey(Milky, Jar, Refill)))
  {
    assert KeyName(ShadeKey(Milky, Jar, Refill)) == "milky" + "_" + "jar" + "_" + "refill";
    assert Prefix + ("milky" + "_" + "jar" + "_" + "refill") == "PLACEHOLDER_milky_jar_refill";
  }

  /** The milky jar entries, one tier at a time. */
  lemma MilkyJarPrefixed(t: TierId)
    requires PriceId(ShadeKey(Milky, Jar, t)).Some?
    ensures PriceId(ShadeKey(Milky, Jar, t)).value == Prefix + KeyName(ShadeKey(Milky, Jar, t))
  {
    match t
    case Sample => MilkyJarSamplePrefixed();
    case Studio => MilkyJarStudioPrefixed();
    case Refill => MilkyJarRefillPrefixed();
    case _ =>
  }

  lemma NudeJarSamplePrefixed()
    ensures PriceId(ShadeKey(Nude, Jar, Sample)) == Some(Prefix + KeyName(ShadeKey(Nude, Jar, Sample)))
  {
    assert KeyName(ShadeKey(Nude, Jar, Sample)) == "nude" + "_" + "jar" + "_" + "sample";
    assert Prefix + ("nude" + "_" + "jar" + "_" + "sample") == "PLACEHOLDER_nude_jar_sample";
  }

  lemma NudeJarStudioPrefixed()
    ensures PriceId(ShadeKey(Nude, Jar, Studio)) == Some(Prefix + KeyName(ShadeKey(Nude, Jar, Studio)))
  {
    assert KeyName(ShadeKey(Nude, Jar, Studio)) == "nude" + "_" + "jar" + "_" + "studio";
    assert Prefix + ("nude" + "_" + "jar" + "_" + "studio") == "PLACEHOLDER_nude_jar_studio";
  }

  lemma NudeJarRefillPrefixed()
    ensures PriceId(ShadeKey(Nude, Jar, Refill)) == Some(Prefix + KeyName(ShadeKey(Nude, Jar, Refill)))
  {
    assert KeyName(ShadeKey(Nude, Jar, Refill)) == "nude" + "_" + "jar" + "_" + "refill";
    assert Prefix + ("nude" + "_" + "jar" + "_" + "refill") == "PLACEHOLDER_nude_jar_refill";
  }

  /** The nude jar entries, one tier at a time. */
  lemma NudeJarPrefixed(t: TierId)
    requires PriceId(ShadeKey(Nude, Jar, t)).Some?
    ensures PriceId(ShadeKey(Nude, Jar, t)).value == Prefix + KeyName(ShadeKey(Nude, Jar, t))
  {
    match t
    case Sample => NudeJarSamplePrefixed();
    case Studio => NudeJarStudioPrefixed();
    case Refill => NudeJarRefillPrefixed();
    case _ =>
  }

  lemma SheerJarSamplePrefixed()
    ensures PriceId(ShadeKey(Sheer, Jar, Sample)) == Some(Prefix + KeyName(ShadeKey(Sheer, Jar, Sample)))
  {
    assert KeyName(ShadeKey(Sheer, Jar, Sample)) == "sheer" + "_" + "jar" + "_" + "sample";
    assert Prefix + ("sheer" + "_" + "jar" + "_" + "sample") == "PLACEHOLDER_sheer_jar_sample";
  }

  lemma SheerJarStudioPrefixed()
    ensures PriceId(ShadeKey(Sheer, Jar, Studio)) == Some(Prefix + KeyName(ShadeKey(Sheer, Jar, Studio)))
  {
    assert KeyName(ShadeKey(Sheer, Jar, Studio)) == "sheer" + "_" + "jar" + "_" + "studio";
    assert Prefix + ("sheer" + "_" + "jar" + "_" + "studio") == "PLACEHOLDER_sheer_jar_studio";
  }

  lemma SheerJarRefillPrefixed()
    ensures PriceId(ShadeKey(Sheer, Jar, Refill)) == Some(Prefix + KeyName(ShadeKey(Sheer, Jar, Refill)))
  {
    assert KeyName(ShadeKey(Sheer, Jar, Refill)) == "sheer" + "_" + "jar" + "_" + "refill";
    assert Prefix + ("sheer" + "_" + "jar" + "_" + "refill") == "PLACEHOLDER_sheer_jar_refill";
  }

  /** The sheer jar entries, one tier at a time. */
  lemma SheerJarPrefixed(t: TierId)
    requires PriceId(ShadeKey(Sheer, Jar, t)).Some?
    ensures PriceId(ShadeKey(Sheer, Jar, t)).value == Prefix + KeyName(ShadeKey(Sheer, Jar, t))
  {
    match t
    case Sample => SheerJarSamplePrefixed();
    case Studio => SheerJarStudioPrefixed();
    case Refill => SheerJarRefillPrefixed();
    case _ =>
  }

  lemma ClearBottleSamplePrefixed()
    ensures PriceId(ShadeKey(Clear, Bottle, Sample)) == Some(Prefix + KeyName(ShadeKey(Clear, Bottle, Sample)))
  {
    assert KeyName(ShadeKey(Clear, Bottle, Sample)) == "clear" + "_" + "bottle" + "_" + "sample";
    assert Prefix + ("clear" + "_" + "bottle" + "_" + "sample") == "PLACEHOLDER_clear_bottle_sample";
  }

  lemma ClearBottleStandardPrefixed()
    ensures PriceId(ShadeKey(Clear, Bottle, Standard)) == Some(Prefix + KeyName(ShadeKey(Clear, Bottle, Standard)))
  {
    assert KeyName(ShadeKey(Clear, Bottle, Standard)) == "clear" + "_" + "bottle" + "_" + "standard";
    assert Prefix + ("clear" + "_" + "bottle" + "_" + "standard") == "PLACEHOLDER_clear_bottle_standard";
  }

  lemma ClearBottleStudioPrefixed()
    ensures PriceId(ShadeKey(Clear, Bottle, Studio)) == Some(Prefix + KeyName(ShadeKey(Clear, Bottle, Studio)))
  {
    assert KeyName(ShadeKey(Clear, Bottle, Studio)) == "clear" + "_" + "bottle" + "_" + "studio";
    assert Prefix + ("clear" + "_" + "bottle" + "_" + "studio") == "PLACEHOLDER_clear_bottle_studio";
  }

  /** The clear bottle entries, one tier at a time. */
  lemma ClearBottlePrefixed(t: TierId)
    requires PriceId(ShadeKey(Clear, Bottle, t)).Some?
    ensures PriceId(ShadeKey(Clear, Bottle, t)).value == Prefix + KeyName(ShadeKey(Clear, Bottle, t))
  {
    match t
    case Sample => ClearBottleSamplePrefixed();
    case Standard => ClearBottleStandardPrefixed();
    case Studio => ClearBottleStudioPrefixed();
    case _ =>
  }

  lemma MilkyBottleSamplePrefixed()
    ensures PriceId(ShadeKey(Milky, Bottle, Sample)) == Some(Prefix + KeyName(ShadeKey(Milky, Bottle, Sample)))
  {
    assert KeyName(ShadeKey(Milky, Bottle, Sample)) == "milky" + "_" + "bottle" + "_" + "sample";
    assert Prefix + ("milky" + "_" + "bottle" + "_" + "sample") == "PLACEHOLDER_milky_bottle_sample";
  }

  lemma MilkyBottleStandardPrefixed()
    ensures PriceId(ShadeKey(Milky, Bottle, Standard)) == Some(Prefix + KeyName(ShadeKey(Milky, Bottle, Standard)))
  {
    assert KeyName(ShadeKey(Milky, Bottle, Standard)) == "milky" + "_" + "bottle" + "_" + "standard";
    assert Prefix + ("milky" + "_" + "bottle" + "_" + "standard") == "PLACEHOLDER_milky_bottle_standard";
  }

  lemma MilkyBottleStudioPrefixed()
    ensures PriceId(ShadeKey(Milky, Bottle, Studio)) == Some(Prefix + KeyName(ShadeKey(Milky, Bottle, Studio)))
  {
    assert KeyName(ShadeKey(Milky, Bottle, Studio)) == "milky" + "_" + "bottle" + "_" + "studio";
    assert Prefix + ("milky" + "_" + "bottle" + "_" + "studio") == "PLACEHOLDER_milky_bottle_studio";
  }

  /** The milky bottle entries, one tier at a time. */
  lemma MilkyBottlePrefixed(t: TierId)
    requires PriceId(ShadeKey(Milky, Bottle, t)).Some?
    ensures PriceId(ShadeKey(Milky, Bottle, t)).value == Prefix + KeyName(ShadeKey(Milky, Bottle, t))
  {
    match t
    case Sample => MilkyBottleSamplePrefixed();
    case Standard => MilkyBottleStandardPrefixed();
    case Studio => MilkyBottleStudioPrefixed();
    case _ =>
  }

  lemma NudeBottleSamplePrefixed()
    ensures PriceId(ShadeKey(Nude, Bottle, Sample)) == Some(Prefix + KeyName(ShadeKey(Nude, Bottle, Sample)))
  {
    assert KeyName(ShadeKey(Nude, Bottle, Sample)) == "nude" + "_" + "bottle" + "_" + "sample";
    assert Prefix + ("nude" + "_" + "bottle" + "_" + "sample") == "PLACEHOLDER_nude_bottle_sample";
  }

  lemma NudeBottleStandardPrefixed()
    ensures PriceId(ShadeKey(Nude, Bottle, Standard)) == Some(Prefix + KeyName(ShadeKey(Nude, Bottle, Standard)))
  {
    assert KeyName(ShadeKey(Nude, Bottle, Standard)) == "nude" + "_" + "bottle" + "_" + "standard";
    assert Prefix + ("nude" + "_" + "bottle" + "_" + "standard") == "PLACEHOLDER_nude_bottle_standard";
  }

  lemma NudeBottleStudioPrefixed()
    ensures PriceId(ShadeKey(Nude, Bottle, Studio)) == Some(Prefix + KeyName(ShadeKey(Nude, Bottle, Studio)))
  {
    assert KeyName(ShadeKey(Nude, Bottle, Studio)) == "nude" + "_" + "bottle" + "_" + "studio";
    assert Prefix + ("nude" + "_" + "bottle" + "_" + "studio") == "PLACEHOLDER_nude_bottle_studio";
  }

  /** The nude bottle entries, one tier at a time. */
  lemma NudeBottlePrefixed(t: TierId)
    requires PriceId(ShadeKey(Nude, Bottle, t)).Some?
    ensures PriceId(ShadeKey(Nude, Bottle, t)).value == Prefix + KeyName(ShadeKey(Nude, Bottle, t))
  {
    match t
    case Sample => NudeBottleSamplePrefixed();
    case Standard => NudeBottleStandardPrefixed();
    case Studio => NudeBottleStudioPrefixed();
    case _ =>
  }

  /** Every identifier is the prefix followed by its own key. */
  lemma PriceIdIsPrefixedKey(k: PriceKey)
    requires PriceId(k).Some?
    ensures PriceId(k).value == Prefix + KeyName(k)
  {
    match k
    case LegacyKey(Jar, t) => LegacyJarPrefixed(t);
    case LegacyKey(Bottle, t) => LegacyBottlePrefixed(t);
    case ShadeKey(Clear, Jar, t) => ClearJarPrefixed(t);
    case ShadeKey(Clear, Bottle, t) => ClearBottlePrefixed(t);
    case ShadeKey(Milky, Jar, t) => MilkyJarPrefixed(t);
    case ShadeKey(Milky, Bottle, t) => MilkyBottlePrefixed(t);
    case ShadeKey(Nude, Jar, t) => NudeJarPrefixed(t);
    case ShadeKey(Nude, Bottle, t) => NudeBottlePrefixed(t);
    case ShadeKey(Sheer, Jar, t) => SheerJarPrefixed(t);
    case ShadeKey(Sheer, Bottle, t) =>
  }

  /** Distinct keys carry distinct identifiers. */
  lemma PriceIdsDistinct(k1: PriceKey, k2: PriceKey)
    requires PriceId(k1).Some? && PriceId(k2).Some?
    ensures PriceId(k1) == PriceId(k2) <==> k1 == k2
  {
    if PriceId(k1) == PriceId(k2) {
      PriceIdIsPrefixedKey(k1);
      PriceIdIsPrefixedKey(k2);
      assert (Prefix + KeyName(k1))[|Prefix|..] == KeyName(k1);
      assert (Prefix + KeyName(k2))[|Prefix|..] == KeyName(k2);
      KeyNameInjective(k1, k2);
    }
  }
}
