/**
 * Shopify global ids as the metafield helpers build them: the fixed scheme
 * `gid://shopify/`, the resource type, a slash, and the value as a template
 * literal renders it.
 */
module Metafield {
  import opened Wrappers
  import opened Strings
  import opened JsValues

  /** The scheme and namespace every Shopify global id starts with. */
  function GidPrefix(): string {
    "gid://shopify/"
  }

  /** `generateShopifyGid(entityType, value)`. */
  function GenerateShopifyGid(entityType: string, value: JsValue): (gid: string)
    ensures StartsWith(gid, GidPrefix())
    ensures gid[|GidPrefix()|..] == entityType + "/" + ToString(value)
  {
    var tail := entityType + "/" + ToString(value);
    assert (GidPrefix() + tail)[|GidPrefix()|..] == tail;
    GidPrefix() + tail
  }

  /** `generateShopifyProductGid(value)`: the id of a product. */
  function GenerateShopifyProductGid(value: JsValue): (gid: string)
    ensures gid == ProductGidPrefix() + ToString(value)
  {
    assert GidPrefix() + "Product" + "/" + ToString(value) == ProductGidPrefix() + ToString(value);
    GenerateShopifyGid("Product", value)
  }

  /** `gid://shopify/Product/`: the part of a product id before its value. */
  function ProductGidPrefix(): string {
    GidPrefix() + "Product/"
  }

  // ---------------------------------------------------------------------------
  // reading an id back
  // ---------------------------------------------------------------------------

  /** The text before and after the first occurrence of `d`, if there is one. */
  function SplitFirst(s: string, d: char): (r: Option<(string, string)>)
    ensures r.Some? ==> d !in r.value.0 && s == r.value.0 + [d] + r.value.1
    ensures r.None? <==> d !in s
  {
    if |s| == 0 then None
    else if s[0] == d then
      assert s == "" + [d] + s[1..];
      Some(("", s[1..]))
    else
      match SplitFirst(s[1..], d)
      case None => None
      case Some((a, b)) =>
        assert s == [s[0]] + a + [d] + b;
        Some(([s[0]] + a, b))
  }

  /** Splitting at the first `d` recovers a separator-free head and everything after it. */
  lemma {:induction false} SplitFirstOf(a: string, b: string, d: char)
    requires d !in a
    ensures SplitFirst(a + [d] + b, d) == Some((a, b))
  {
    if |a| == 0 {
      assert a + [d] + b == [d] + b;
      assert ([d] + b)[1..] == b;
    } else {
      SplitFirstOf(a[1..], b, d);
      assert (a + [d] + b)[1..] == a[1..] + [d] + b;
      assert [a[0]] + a[1..] == a;
    }
  }

  /** The resource type and the value of a Shopify global id, if it has the `gid://shopify/<type>/` form. */
  function ParseShopifyGid(gid: string): Option<(string, string)> {
    if !StartsWith(gid, GidPrefix()) then None
    else SplitFirst(gid[|GidPrefix()|..], '/')
  }

  /** The value of a product id, or `None` when the text does not start with `gid://shopify/Product/`. */
  function ProductGidValue(gid: string): Option<string> {
    if StartsWith(gid, ProductGidPrefix()) then Some(gid[|ProductGidPrefix()|..]) else None
  }

  /** Parsing a generated id gives back its type and rendered value, for any type without a slash. */
  lemma ParseGenerated(entityType: string, value: JsValue)
    requires '/' !in entityType
    ensures ParseShopifyGid(GenerateShopifyGid(entityType, value)) == Some((entityType, ToString(value)))
  {
    SplitFirstOf(entityType, ToString(value), '/');
  }

  /** Every parsed id is the generated id of its type and value. */
  lemma GenerateParsed(gid: string)
    requires ParseShopifyGid(gid).Some?
    ensures var (t, v) := ParseShopifyGid(gid).value; GenerateShopifyGid(t, Str(v)) == gid
  {
    var tail := gid[|GidPrefix()|..];
    assert gid == GidPrefix() + tail;
  }

  /** Stripping the product prefix from a product id recovers the rendered value exactly. */
  lemma ProductGidRoundTrip(value: JsValue)
    ensures ProductGidValue(GenerateShopifyProductGid(value)) == Some(ToString(value))
  {
    var gid := GenerateShopifyProductGid(value);
    assert gid[..|ProductGidPrefix()|] == ProductGidPrefix();
    assert gid[|ProductGidPrefix()|..] == ToString(value);
  }

  /** Every text carrying the product prefix is the product id of its remainder. */
  lemma ProductGidValueRoundTrip(gid: string)
    requires ProductGidValue(gid).Some?
    ensures GenerateShopifyProductGid(Str(ProductGidValue(gid).value)) == gid
  {
    assert gid == gid[..|ProductGidPrefix()|] + gid[|ProductGidPrefix()|..];
  }

  /** Two ids of types without a slash are equal exactly when the types and the rendered values are. */
  lemma GidInjective(t1: string, v1: JsValue, t2: string, v2: JsValue)
    requires '/' !in t1 && '/' !in t2
    ensures GenerateShopifyGid(t1, v1) == GenerateShopifyGid(t2, v2) <==> t1 == t2 && ToString(v1) == ToString(v2)
  {
    ParseGenerated(t1, v1);
    ParseGenerated(t2, v2);
  }

  /** Distinct string values give distinct product ids. */
  lemma ProductGidInjective(a: string, b: string)
    ensures GenerateShopifyProductGid(Str(a)) == GenerateShopifyProductGid(Str(b)) <==> a == b
  {
    ProductGidRoundTrip(Str(a));
    ProductGidRoundTrip(Str(b));
  }

  /** The number `7` and the string `'7'` render alike, so they name the same product. */
  lemma NumberAndStringCollide()
    ensures GenerateShopifyProductGid(Num(7)) == GenerateShopifyProductGid(Str("7"))
  {
    assert IntToString(7) == "7";
  }

  /** A `Date` and a number never name the same product: the date renders from a weekday name, the number from a digit or `-`. */
  lemma DateAndNumberDiffer(ms: int, n: int)
    ensures GenerateShopifyProductGid(Time(ms)) != GenerateShopifyProductGid(Num(n))
  {
    ProductGidRoundTrip(Time(ms));
    ProductGidRoundTrip(Num(n));
    DateStringStart(ms);
    var d := IntToString(n);
    assert d[0] == '-' || IsDigit(d[0]);
  }
}
