/** `get_html`: one GET request for a URL, with "https://" put in front of
    input that does not start with "http". The HTTP client is an oracle:
    what it answers for a URL is a parameter. */
module Fetch {
  import opened Text

  /** What `requests.get` produced for one URL: an exception (timeout,
      connection or TLS error), or a response with its status code, body
      text and the URL reached after redirects. */
  datatype HttpResponse = HttpFailed | HttpReply(status: int, text: string, url: string)

  /** `(html, final_url)`; `html` is None on every failure. */
  datatype FetchResult = FetchResult(html: Option<string>, finalUrl: string)

  /** Line 89: the URL actually requested. */
  function WithScheme(url: string): (r: string)
    ensures StartsWith(r, "http")
    ensures r == url <==> StartsWith(url, "http")
    ensures r != url ==> r == "https://" + url
  {
    if StartsWith(url, "http") then url else "https://" + url
  }

  /** Adding the scheme a second time changes nothing. */
  lemma WithSchemeIdempotent(url: string)
    ensures WithScheme(WithScheme(url)) == WithScheme(url)
  {
  }

  /** `example.com/shop` is requested as `https://example.com/shop`. */
  lemma SchemeAddedToBareUrl()
    ensures WithScheme("example.com/shop") == "https://example.com/shop"
  {
    assert !StartsWith("example.com/shop", "http") by {
      assert "example.com/shop"[0] != 'h';
    }
  }

  /** `get_html(url)`: the page and final URL on status 200; on any other
      status and on an exception, no page and the URL as requested. */
  function GetHtml(url: string, http: string -> HttpResponse): (r: FetchResult)
    ensures r.html.Some? <==> http(WithScheme(url)).HttpReply? && http(WithScheme(url)).status == 200
    ensures r.html.Some? ==> r.html.value == http(WithScheme(url)).text && r.finalUrl == http(WithScheme(url)).url
    ensures r.html.None? ==> r.finalUrl == WithScheme(url)
  {
    var requested := WithScheme(url);
    match http(requested)
    case HttpFailed => FetchResult(None, requested)
    case HttpReply(status, text, finalUrl) =>
      if status == 200 then FetchResult(Some(text), finalUrl) else FetchResult(None, requested)
  }

  /** Python's `if html:`: a page was fetched and its text is not empty. */
  predicate Retrieved(r: FetchResult) {
    r.html.Some? && r.html.value != []
  }

  /** A non-200 answer gives no page and reports the URL that was asked
      for, even when the server redirected. */
  lemma FailedFetchReportsRequest(url: string, http: string -> HttpResponse)
    requires http(WithScheme(url)).HttpReply? && http(WithScheme(url)).status != 200
    ensures !Retrieved(GetHtml(url, http))
    ensures GetHtml(url, http).finalUrl == WithScheme(url)
  {
  }
}
