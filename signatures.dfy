/** The platform classifier `detect_ecommerce`: a fixed, ordered table of
    platforms and their markup signatures, searched in the lower-cased page;
    WooCommerce is kept only when the page also mentions a cart or a shop. */
module Signatures {
  import opened Text

  /** One entry of the signature table. Every pattern of the source is a
      literal once `\.` is read as `.`; the one with a character class
      (`content=["\']prestashop["\']`) is listed as its four spellings. */
  datatype Signature = Signature(platform: string, patterns: seq<string>)

  /** The table in the order Python iterates the dictionary literal. */
  const Table: seq<Signature> := [
    Signature("Shopify", ["cdn.shopify.com", "shopify.theme", "shopify-checkout", "myshopify.com"]),
    Signature("Salesforce Commerce Cloud",
      ["dwvar_", "dw.ac", ".demandware.net", "demandware.store", "edge.quantity"]),
    Signature("Magento",
      ["text/x-magento-init", "mage/captcha", "checkout/cart", "magento_version", "static/frontend"]),
    Signature("WooCommerce", ["wc-cart-fragments", "woocommerce-no-js", "wp-content/plugins/woocommerce"]),
    Signature("PrestaShop",
      ["var prestashop =",
       "content=\"prestashop\"", "content=\"prestashop'", "content='prestashop\"", "content='prestashop'",
       "prestashop-icon"]),
    Signature("VTEX", ["vtexassets.com", "vtex-io", "vtex.cmc"]),
    Signature("BigCommerce", ["cdn11.bigcommerce.com", "stencil-config"]),
    Signature("Wix", ["wix-ecommerce", "wix-store-fixed"]),
    Signature("Squarespace", ["squarespace-cart", "sqs-shopping-cart", "static.squarespace.com"]),
    Signature("Odoo", ["website_sale.cart", "website.assets_frontend"])
  ]

  const WooCommerce: string := "WooCommerce"

  /** Without one of these in the page a WooCommerce match is discarded. */
  const CommerceTokens: seq<string> := ["cart", "carrito", "basket", "shop", "tienda"]

  /** Python's `any(x in text for x in parts)`. */
  predicate AnyOccurs(text: string, parts: seq<string>) {
    exists i :: 0 <= i < |parts| && Contains(text, parts[i])
  }

  /** The exclusion rule: only WooCommerce has one. */
  predicate PassesExclusion(platform: string, text: string) {
    platform == WooCommerce ==> AnyOccurs(text, CommerceTokens)
  }

  /** `sig.platform` is appended to the result for the lower-cased `text`. */
  predicate Kept(sig: Signature, text: string) {
    AnyOccurs(text, sig.patterns) && PassesExclusion(sig.platform, text)
  }

  /** The index of the first table entry named `p` at or after `k`, or
      `|Table|` when there is none. */
  function RankFrom(p: string, k: nat): (r: nat)
    requires k <= |Table|
    ensures k <= r <= |Table|
    ensures r < |Table| ==> Table[r].platform == p
    ensures forall j :: k <= j < r ==> Table[j].platform != p
    decreases |Table| - k
  {
    if k == |Table| || Table[k].platform == p then k else RankFrom(p, k + 1)
  }

  /** Position of a platform name in the table (`|Table|` if absent). */
  function Rank(p: string): nat {
    RankFrom(p, 0)
  }

  lemma PlatformsDistinct()
    ensures forall i, j :: 0 <= i < j < |Table| ==> Table[i].platform != Table[j].platform
  {
  }

  lemma RankOf(j: nat)
    requires j < |Table|
    ensures Rank(Table[j].platform) == j
  {
    PlatformsDistinct();
  }

  /** The `for platform, patterns in signatures.items()` loop from entry `k`
      on: the platforms kept, in table order. */
  function Scan(text: string, k: nat): (found: seq<string>)
    requires k <= |Table|
    ensures forall i :: 0 <= i < |found| ==>
      k <= Rank(found[i]) < |Table| && Table[Rank(found[i])].platform == found[i] &&
      Kept(Table[Rank(found[i])], text)
    ensures forall i, j :: 0 <= i < j < |found| ==> Rank(found[i]) < Rank(found[j])
    decreases |Table| - k
  {
    if k == |Table| then []
    else
      RankOf(k);
      (if Kept(Table[k], text) then [Table[k].platform] else []) + Scan(text, k + 1)
  }

  /** Every entry from `k` on that is kept appears in the scan. */
  lemma {:induction false} ScanComplete(text: string, k: nat, j: nat)
    requires k <= j < |Table| && Kept(Table[j], text)
    ensures Table[j].platform in Scan(text, k)
    decreases |Table| - k
  {
    if k < j {
      ScanComplete(text, k + 1, j);
    }
  }

  /** `detect_ecommerce(html)`: the platforms whose signatures occur in the
      lower-cased page, in table order; the empty page gives none. */
  function Detect(html: string): (found: seq<string>)
    ensures html == [] ==> found == []
    ensures forall i :: 0 <= i < |found| ==>
      Rank(found[i]) < |Table| && Table[Rank(found[i])].platform == found[i] &&
      Kept(Table[Rank(found[i])], Lower(html))
    ensures forall i, j :: 0 <= i < j < |found| ==> Rank(found[i]) < Rank(found[j])
  {
    if html == [] then [] else Scan(Lower(html), 0)
  }

  lemma NothingKeptInEmpty(j: nat)
    requires j < |Table|
    ensures !Kept(Table[j], [])
  {
    forall i | 0 <= i < |Table[j].patterns|
      ensures !Contains([], Table[j].patterns[i])
    {
      NothingInEmpty(Table[j].patterns[i]);
    }
  }

  /** A platform is reported exactly when one of its patterns occurs in the
      lower-cased page and, for WooCommerce, a commerce token does too. */
  lemma DetectMembership(html: string, j: nat)
    requires j < |Table|
    ensures Table[j].platform in Detect(html) <==> Kept(Table[j], Lower(html))
  {
    var found := Detect(html);
    if Table[j].platform in found {
      var i :| 0 <= i < |found| && found[i] == Table[j].platform;
      RankOf(j);
    } else if html != [] && Kept(Table[j], Lower(html)) {
      ScanComplete(Lower(html), 0, j);
    } else if html == [] {
      NothingKeptInEmpty(j);
    }
  }

  /** For every platform without an exclusion rule: reported iff one of its
      patterns occurs in the lower-cased page. */
  lemma DetectWithoutExclusion(html: string, j: nat)
    requires j < |Table| && Table[j].platform != WooCommerce
    ensures Table[j].platform in Detect(html) <==> AnyOccurs(Lower(html), Table[j].patterns)
  {
    DetectMembership(html, j);
  }

  /** Only names from the table are ever reported, each at most once. */
  lemma DetectNoDuplicates(html: string)
    ensures forall i, j :: 0 <= i < j < |Detect(html)| ==> Detect(html)[i] != Detect(html)[j]
    ensures forall p :: p in Detect(html) ==> exists j :: 0 <= j < |Table| && Table[j].platform == p
  {
    var found := Detect(html);
    forall p | p in found
      ensures exists j :: 0 <= j < |Table| && Table[j].platform == p
    {
      var i :| 0 <= i < |found| && found[i] == p;
      assert Table[Rank(found[i])].platform == p;
    }
  }

  /** Matching is case-insensitive: the page and its lower-cased copy give
      the same platforms. */
  lemma DetectIgnoresCase(html: string)
    ensures Detect(Lower(html)) == Detect(html)
  {
    LowerOfLower(html);
  }

  /** The primary platform (the first reported) is the first table entry
      kept: every entry before it was not matched or was excluded. */
  lemma PrimaryIsFirstKept(html: string, j: nat)
    requires Detect(html) != [] && j < Rank(Detect(html)[0])
    ensures !Kept(Table[j], Lower(html))
  {
    var found := Detect(html);
    RankOf(j);
    forall i | 0 <= i < |found|
      ensures found[i] != Table[j].platform
    {
      assert Rank(found[0]) <= Rank(found[i]);
    }
    DetectMembership(html, j);
  }

  /** `a` comes before `b` wherever both occur in `found`. */
  predicate Precedes(found: seq<string>, a: string, b: string) {
    forall i, j :: 0 <= i < |found| && 0 <= j < |found| && found[i] == a && found[j] == b ==> i < j
  }

  /** A Shopify signature makes Shopify the primary platform, whatever else
      matches. */
  lemma ShopifyIsPrimary(html: string)
    requires AnyOccurs(Lower(html), Table[0].patterns)
    ensures Detect(html) != [] && Detect(html)[0] == "Shopify"
  {
    DetectMembership(html, 0);
    var found := Detect(html);
    RankOf(0);
    var i :| 0 <= i < |found| && found[i] == "Shopify";
    assert Rank(found[0]) <= Rank(found[i]);
  }

  /** In a result ordered by rank, lower rank means earlier position. */
  lemma OrderFollowsRank(found: seq<string>, i: nat, j: nat)
    requires forall a, b :: 0 <= a < b < |found| ==> Rank(found[a]) < Rank(found[b])
    requires i < |found| && j < |found| && Rank(found[i]) < Rank(found[j])
    ensures i < j
  {
  }

  /** When Shopify and Magento both match, both are reported, Shopify first. */
  lemma ShopifyBeforeMagento(html: string)
    requires AnyOccurs(Lower(html), Table[0].patterns) && AnyOccurs(Lower(html), Table[2].patterns)
    ensures "Shopify" in Detect(html) && "Magento" in Detect(html)
    ensures Precedes(Detect(html), "Shopify", "Magento")
  {
    assert Table[0].platform == "Shopify" && Table[2].platform == "Magento";
    DetectMembership(html, 0);
    DetectMembership(html, 2);
    RankOf(0);
    RankOf(2);
    var found := Detect(html);
    forall i, j | 0 <= i < |found| && 0 <= j < |found| && found[i] == "Shopify" && found[j] == "Magento"
      ensures i < j
    {
      OrderFollowsRank(found, i, j);
    }
  }

  /** A WooCommerce signature without any commerce token in the page is
      not reported. */
  lemma WooCommerceExcluded(html: string)
    requires forall t :: 0 <= t < |CommerceTokens| ==> !Contains(Lower(html), CommerceTokens[t])
    ensures WooCommerce !in Detect(html)
  {
    RankOf(3);
    DetectMembership(html, 3);
  }

  /** `wc-cart-fragments` contains `cart`, so that pattern alone always
      keeps WooCommerce. */
  lemma CartFragmentsKeepWooCommerce(html: string)
    requires Contains(Lower(html), "wc-cart-fragments")
    ensures WooCommerce in Detect(html)
  {
    ContainsAt("wc-cart-fragments", "cart", 3);
    ContainsTransitive(Lower(html), "wc-cart-fragments", "cart");
    assert Contains(Lower(html), CommerceTokens[0]);
    assert Contains(Lower(html), Table[3].patterns[0]);
    DetectMembership(html, 3);
  }
}
