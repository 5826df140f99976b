/** The single lookup behind the "Investigar" button: decide whether the
    input is already a URL, otherwise resolve it by search, fetch the page,
    classify it, and report one of the outcomes the page can show. */
module Lookup {
  import opened Text
  import opened Signatures
  import opened Fetch
  import opened Search

  /** What the page shows: nothing for an empty input, "URL no
      encontrada", "No se pudo acceder a la web", "Plataforma no
      detectada", or the primary platform with the domain analysed. */
  datatype Outcome =
    | NoInput
    | NotFound
    | Unreachable(target: string)
    | Undetected(domain: string)
    | Detected(domain: string, platform: string)

  /** Line 121: input holding both a '.' and a '/' is used as a URL. */
  predicate LooksLikeUrl(input: string) {
    '.' in input && '/' in input
  }

  /** Lines 124-132 for a non-empty target: fetch, classify, and take the
      domain from the final URL. */
  function Classify(target: string, http: string -> HttpResponse, netloc: string -> string): (r: Outcome)
    ensures r.Unreachable? <==> !Retrieved(GetHtml(target, http))
    ensures r.Unreachable? ==> r.target == target
    ensures r.Detected? || r.Undetected? ==> r.domain == netloc(GetHtml(target, http).finalUrl)
    ensures r.Detected? <==> Retrieved(GetHtml(target, http)) && Detect(GetHtml(target, http).html.value) != []
    ensures r.Detected? ==> r.platform == Detect(GetHtml(target, http).html.value)[0]
    ensures !r.NoInput? && !r.NotFound?
  {
    var page := GetHtml(target, http);
    if !Retrieved(page) then Unreachable(target)
    else
      var found := Detect(page.html.value);
      var domain := netloc(page.finalUrl);
      if found != [] then Detected(domain, found[0]) else Undetected(domain)
  }

  /** Lines 119-134. `search` is `google_search`; a None or empty answer
      is falsy and shows "URL no encontrada". */
  function Investigate(input: string, search: string -> Option<string>,
                       http: string -> HttpResponse, netloc: string -> string): (r: Outcome)
    ensures r.NoInput? <==> input == []
    ensures r.NotFound? <==> input != [] && !LooksLikeUrl(input) && (search(input).None? || search(input) == Some([]))
  {
    if input == [] then NoInput
    else
      var target := if LooksLikeUrl(input) then Some(input) else search(input);
      if target.None? || target.value == [] then NotFound
      else Classify(target.value, http, netloc)
  }

  /** URL-like input goes straight to the fetch: search is never asked. */
  lemma UrlInputSkipsSearch(input: string, search1: string -> Option<string>, search2: string -> Option<string>,
                            http: string -> HttpResponse, netloc: string -> string)
    requires LooksLikeUrl(input)
    ensures Investigate(input, search1, http, netloc) == Classify(input, http, netloc)
    ensures Investigate(input, search1, http, netloc) == Investigate(input, search2, http, netloc)
  {
  }

  /** Any other input is classified through the URL that search returns. */
  lemma NameInputIsSearched(input: string, search: string -> Option<string>,
                            http: string -> HttpResponse, netloc: string -> string)
    requires input != [] && !LooksLikeUrl(input)
    requires search(input).Some? && search(input).value != []
    ensures Investigate(input, search, http, netloc) == Classify(search(input).value, http, netloc)
  {
  }

  /** A bare domain has no '/' and so goes through search; when search
      finds nothing the outcome is NotFound, not Unreachable. */
  lemma BareDomainNotFound(search: string -> Option<string>, http: string -> HttpResponse, netloc: string -> string)
    requires search("acme.com").None?
    ensures Investigate("acme.com", search, http, netloc) == NotFound
  {
    assert '/' !in "acme.com";
  }

  /** The reported platform is a table entry that matched the page. */
  lemma DetectedPlatformMatched(input: string, search: string -> Option<string>,
                                http: string -> HttpResponse, netloc: string -> string)
    ensures Investigate(input, search, http, netloc).Detected? ==>
      exists j :: 0 <= j < |Table| && Table[j].platform == Investigate(input, search, http, netloc).platform
  {
    if !Investigate(input, search, http, netloc).Detected? { return; }
    var target := if LooksLikeUrl(input) then input else search(input).value;
    var html := GetHtml(target, http).html.value;
    DetectNoDuplicates(html);
  }

  /** A brand name resolved by search to a page carrying a Shopify
      signature is reported as Shopify on the final URL's domain. */
  lemma ShopifyStoreFound(input: string, search: string -> Option<string>,
                          http: string -> HttpResponse, netloc: string -> string, url: string, html: string, final: string)
    requires input != [] && !LooksLikeUrl(input)
    requires search(input) == Some(url) && url != []
    requires http(WithScheme(url)) == HttpReply(200, html, final)
    requires Contains(Lower(html), "cdn.shopify.com")
    ensures Investigate(input, search, http, netloc) == Detected(netloc(final), "Shopify")
  {
    assert Contains(Lower(html), Table[0].patterns[0]);
    ShopifyIsPrimary(html);
  }

  /** With the real resolver behind the name path: a failed search, or
      one whose answer has no "items", is NotFound, never Unreachable. */
  lemma FailedSearchIsNotFound(input: string, api: string -> ApiResponse,
                               ask: (string, seq<Candidate>) -> Option<string>,
                               http: string -> HttpResponse, netloc: string -> string)
    requires input != [] && !LooksLikeUrl(input)
    requires api(SearchQuery(input)).ApiFailed? || api(SearchQuery(input)).status != 200 ||
             api(SearchQuery(input)).items.None?
    ensures Investigate(input, q => GoogleSearch(q, api, ask), http, netloc) == NotFound
  {
    assert GoogleSearch(input, api, ask).None?;
  }
}
