/** The spreadsheet run (lines 157-181): every row whose `Plataforma` is
    empty or "nan" is enriched in place. A missing `URL` is looked up by
    brand and written back at once; the page is fetched and its primary
    platform written; a missing `Marca` is filled from the URL's host. */
module Batch {
  import opened Text
  import opened Signatures
  import opened Fetch

  /** One table row, `Marca`, `URL` and `Plataforma`, as the strings the
      loop reads (a missing cell reads as ""). */
  datatype Row = Row(brand: string, url: string, platform: string)

  /** Line 162: only these rows are processed. A pending row never holds
      a platform name from the signature table. */
  predicate Pending(row: Row)
    ensures Pending(row) ==> forall j :: 0 <= j < |Table| ==> Table[j].platform != row.platform
  {
    row.platform == [] || row.platform == "nan"
  }

  /** Lines 166-170: the URL the row ends up with. */
  function ResolvedUrl(row: Row, search: string -> Option<string>): (r: string)
    ensures row.url != [] ==> r == row.url
    ensures r != row.url ==> row.url == [] && row.brand != [] && search(row.brand) == Some(r) && r != []
  {
    if row.url == [] && row.brand != [] && search(row.brand).Some? && search(row.brand).value != []
    then search(row.brand).value
    else row.url
  }

  /** Lines 172-177: the primary platform of the page at `url`, if it was
      fetched and something matched. */
  function Primary(url: string, http: string -> HttpResponse): (p: Option<string>)
    ensures p.Some? <==> url != [] && Retrieved(GetHtml(url, http)) && Detect(GetHtml(url, http).html.value) != []
    ensures p.Some? ==> p.value == Detect(GetHtml(url, http).html.value)[0]
  {
    if url == [] then None
    else
      var page := GetHtml(url, http);
      if !Retrieved(page) then None
      else
        var found := Detect(page.html.value);
        if found == [] then None else Some(found[0])
  }

  /** Line 180: the host with every "www." removed, or None where
      `urlparse` raises and the `except` leaves the brand alone. */
  function HostBrand(url: string, netloc: string -> Option<string>): (r: Option<string>)
    ensures r.Some? <==> netloc(url).Some?
    ensures r.Some? ==> |r.value| <= |netloc(url).value|
    ensures r.Some? && !Contains(netloc(url).value, "www.") ==> r.value == netloc(url).value
  {
    match netloc(url)
    case None => None
    case Some(host) =>
      var brand := RemoveAll(host, "www.");
      assert !Contains(host, "www.") ==> brand == host by {
        if !Contains(host, "www.") { RemoveAllAbsent(host, "www."); }
      }
      Some(brand)
  }

  /** What one pass of the loop body leaves in a row. */
  function Enriched(row: Row, search: string -> Option<string>, http: string -> HttpResponse,
                    netloc: string -> Option<string>): (r: Row)
    ensures !Pending(row) ==> r == row
    ensures r.url != row.url ==> row.url == [] && search(row.brand) == Some(r.url)
    ensures r.brand != row.brand ==> row.brand == [] && HostBrand(r.url, netloc) == Some(r.brand)
    ensures r.platform != row.platform ==> Primary(r.url, http) == Some(r.platform)
  {
    if !Pending(row) then row
    else
      var url := ResolvedUrl(row, search);
      var platform := match Primary(url, http) case Some(p) => p case None => row.platform;
      var brand := if row.brand == [] && url != [] && HostBrand(url, netloc).Some?
                   then HostBrand(url, netloc).value else row.brand;
      Row(brand, url, platform)
  }

  /** The loop of lines 157-181 over the whole table. */
  method EnrichRows(rows: array<Row>, search: string -> Option<string>, http: string -> HttpResponse,
                    netloc: string -> Option<string>)
    modifies rows
    ensures forall i :: 0 <= i < rows.Length ==> rows[i] == Enriched(old(rows[i]), search, http, netloc)
  {
    var i := 0;
    while i < rows.Length
      invariant 0 <= i <= rows.Length
      invariant forall j :: 0 <= j < i ==> rows[j] == Enriched(old(rows[j]), search, http, netloc)
      invariant forall j :: i <= j < rows.Length ==> rows[j] == old(rows[j])
    {
      EnrichRowAt(rows, i, search, http, netloc);
      i := i + 1;
    }
  }

  /** The body of the loop for row `i`: the cells are written one at a
      time, as `df.at[i, ...] = ...` does. */
  method EnrichRowAt(rows: array<Row>, i: nat, search: string -> Option<string>, http: string -> HttpResponse,
                     netloc: string -> Option<string>)
    requires i < rows.Length
    modifies rows
    ensures rows[i] == Enriched(old(rows[i]), search, http, netloc)
    ensures forall j :: 0 <= j < rows.Length && j != i ==> rows[j] == old(rows[j])
  {
    var brand := rows[i].brand;
    var platform := rows[i].platform;
    if platform == [] || platform == "nan" {
      var urlVal := FillUrl(rows, i, search);
      FillPlatform(rows, i, urlVal, http);
      FillBrand(rows, i, brand, urlVal, netloc);
    }
  }

  /** Lines 166-170: search by brand when the URL is missing, and store
      what was found at once. */
  method FillUrl(rows: array<Row>, i: nat, search: string -> Option<string>) returns (urlVal: string)
    requires i < rows.Length
    modifies rows
    ensures urlVal == ResolvedUrl(old(rows[i]), search)
    ensures rows[i] == old(rows[i]).(url := urlVal)
    ensures forall j :: 0 <= j < rows.Length && j != i ==> rows[j] == old(rows[j])
  {
    var brand := rows[i].brand;
    urlVal := rows[i].url;
    if urlVal == [] && brand != [] {
      var found := search(brand);
      if found.Some? && found.value != [] {
        urlVal := found.value;
        rows[i] := rows[i].(url := urlVal);
      }
    }
  }

  /** Lines 172-177: fetch, classify, and store the primary platform. */
  method FillPlatform(rows: array<Row>, i: nat, urlVal: string, http: string -> HttpResponse)
    requires i < rows.Length
    modifies rows
    ensures rows[i] == old(rows[i]).(platform := match Primary(urlVal, http) case Some(p) => p case None => old(rows[i]).platform)
    ensures forall j :: 0 <= j < rows.Length && j != i ==> rows[j] == old(rows[j])
  {
    if urlVal != [] {
      var page := GetHtml(urlVal, http);
      if page.html.Some? && page.html.value != [] {
        var platforms := Detect(page.html.value);
        if platforms != [] {
          rows[i] := rows[i].(platform := platforms[0]);
        }
      }
    }
  }

  /** Lines 179-181: fill a missing brand from the URL's host. */
  method FillBrand(rows: array<Row>, i: nat, brand: string, urlVal: string, netloc: string -> Option<string>)
    requires i < rows.Length
    modifies rows
    ensures rows[i] == old(rows[i]).(brand := if brand == [] && urlVal != [] && HostBrand(urlVal, netloc).Some?
                                                then HostBrand(urlVal, netloc).value else old(rows[i]).brand)
    ensures forall j :: 0 <= j < rows.Length && j != i ==> rows[j] == old(rows[j])
  {
    if brand == [] && urlVal != [] {
      var host := netloc(urlVal);
      if host.Some? {
        rows[i] := rows[i].(brand := RemoveAll(host.value, "www."));
      }
    }
  }

  /** Rows with a platform other than "nan" are left exactly as they were,
      even when their stored URL can no longer be fetched. */
  lemma CompletedRowUntouched(row: Row, search: string -> Option<string>, http: string -> HttpResponse,
                              netloc: string -> Option<string>)
    requires !Pending(row)
    ensures Enriched(row, search, http, netloc) == row
  {
  }

  /** A URL found by search is stored even when the page then cannot be
      fetched or classified. */
  lemma SearchUrlKept(row: Row, search: string -> Option<string>, http: string -> HttpResponse,
                      netloc: string -> Option<string>)
    requires Pending(row) && row.url == [] && row.brand != []
    requires search(row.brand).Some? && search(row.brand).value != []
    ensures Enriched(row, search, http, netloc).url == search(row.brand).value
  {
  }

  /** A given URL is never replaced. */
  lemma GivenUrlKept(row: Row, search: string -> Option<string>, http: string -> HttpResponse,
                     netloc: string -> Option<string>)
    requires row.url != []
    ensures Enriched(row, search, http, netloc).url == row.url
  {
  }

  /** The platform changes only to the primary platform of the fetched
      page, and always does when the page matched something. */
  lemma PlatformOnlyFromMatch(row: Row, search: string -> Option<string>, http: string -> HttpResponse,
                              netloc: string -> Option<string>)
    requires Pending(row)
    ensures var after := Enriched(row, search, http, netloc);
      after.platform != row.platform ==> Primary(after.url, http) == Some(after.platform)
    ensures var after := Enriched(row, search, http, netloc);
      Primary(after.url, http).Some? ==> after.platform == Primary(after.url, http).value
  {
  }

  /** A row that received a platform is complete: a second run over the
      table leaves it unchanged. */
  lemma {:induction false} EnrichedRowIsComplete(row: Row, search: string -> Option<string>,
                                                 http: string -> HttpResponse, netloc: string -> Option<string>)
    requires Pending(row)
    ensures var after := Enriched(row, search, http, netloc);
      Primary(after.url, http).Some? ==> !Pending(after) && Enriched(after, search, http, netloc) == after
  {
    var after := Enriched(row, search, http, netloc);
    if Primary(after.url, http).None? { return; }
    var html := GetHtml(after.url, http).html.value;
    DetectNoDuplicates(html);
    assert after.platform in Detect(html);
  }

  /** The brand is only ever filled in, never overwritten. */
  lemma BrandKept(row: Row, search: string -> Option<string>, http: string -> HttpResponse,
                  netloc: string -> Option<string>)
    requires row.brand != []
    ensures Enriched(row, search, http, netloc).brand == row.brand
  {
  }

  /** A missing brand is taken from the host; a host without "www." is
      used as it is. */
  lemma BrandFromPlainHost(row: Row, search: string -> Option<string>, http: string -> HttpResponse,
                           netloc: string -> Option<string>, host: string)
    requires Pending(row) && row.brand == [] && row.url != []
    requires netloc(row.url) == Some(host) && !Contains(host, "www.")
    ensures Enriched(row, search, http, netloc).brand == host
  {
    RemoveAllAbsent(host, "www.");
  }

  /** Every "www." is removed, not only a leading one. */
  lemma BrandDropsEveryWww(row: Row, search: string -> Option<string>, http: string -> HttpResponse,
                           netloc: string -> Option<string>)
    requires Pending(row) && row.brand == [] && row.url != []
    requires netloc(row.url) == Some("www.a.www.b")
    ensures Enriched(row, search, http, netloc).brand == "a.b"
  {
    var host := "www.a.www.b";
    assert host[..4] == "www." && host[4..] == "a.www.b";
    assert "a.www.b"[..4] != "www." && "a.www.b"[1..] == ".www.b";
    assert ".www.b"[..4] != "www." && ".www.b"[1..] == "www.b";
    assert "www.b"[..4] == "www." && "www.b"[4..] == "b";
    assert RemoveAll(host, "www.") == "a.b";
  }

  /** A pending row with a brand and no URL, whose search result is a
      Shopify store, gets both the URL and "Shopify". */
  lemma ShopifyRowFilled(row: Row, search: string -> Option<string>, http: string -> HttpResponse,
                         netloc: string -> Option<string>, url: string, html: string, final: string)
    requires row == Row("Acme", "", "")
    requires search("Acme") == Some(url) && url != []
    requires http(WithScheme(url)) == HttpReply(200, html, final)
    requires Contains(Lower(html), "cdn.shopify.com")
    ensures Enriched(row, search, http, netloc) == Row("Acme", url, "Shopify")
  {
    assert Contains(Lower(html), Table[0].patterns[0]);
    ShopifyIsPrimary(html);
  }
}
