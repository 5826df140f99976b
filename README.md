# Spymasters platform detection, modelled in Dafny

Spymasters finds out which e-commerce platform runs a brand's web shop
(Shopify, Magento, WooCommerce, ...). It takes a brand name or a URL, or a
spreadsheet of rows. It resolves a name to a storefront URL with a web search
and a language model, fetches the page, and matches the markup against a fixed
table of platform signatures.

This project models the core of `spymasters-web.py`:

- `text.dfy`, module `Text`: the Python string operations the core relies on.
  These are substring search (`in`, `re.search` on literal patterns), `startswith`,
  `lower` on ASCII, `strip`, `split()[0]`, and `replace(x, "")`.
- `signatures.dfy`, module `Signatures`: `detect_ecommerce`. It holds the
  ordered signature table, the matching and the WooCommerce exclusion rule.
- `search.dfy`, module `Search`: `google_search` and the answer parsing of
  `ai_validate_results`. The search API and the language model are oracles
  passed in as parameters.
- `fetch.dfy`, module `Fetch`: `get_html`, including adding the scheme and the
  fail-soft result. The HTTP client is an oracle.
- `lookup.dfy`, module `Lookup`: the single lookup. It decides whether the
  input is a URL and picks one of the outcomes: nothing, not found,
  unreachable, not detected, or detected.
- `batch.dfy`, module `Batch`: the spreadsheet loop. A method walks an
  array of rows and fills in URL, platform and brand in place.

Behaviour of the code that is easy to miss:

- The brand is filled in from the host with every "www." removed (`str.replace`),
  not only a leading one.
- When the search answer has an empty `items` list, the model is still asked.
  An answer that is a URL is then accepted. Only the fallback to
  the first item fails, and `google_search` turns that failure into no result.
- A page fetched with status 200 but an empty body is falsy in Python (`if html:`).
  The single lookup therefore reports it as unreachable, and the batch leaves the
  platform alone.
- A search result that is the empty string is falsy too. It counts as not found.

## Model

| member | source | states |
|---|---|---|
| `Text.Lower` | spymasters-web.py:41 | the lower-cased page has the same length and no ASCII capital letter |
| `Text.FirstToken` | spymasters-web.py:69 | `split()[0]` is absent exactly when the text is all whitespace; otherwise it is a non-empty, whitespace-free run that follows only whitespace and ends at whitespace or the end |
| `Text.Strip` | spymasters-web.py:69 | `strip()` is no longer than its input, is empty exactly when the input is all whitespace, and otherwise starts and ends with a non-space character |
| `Text.RemoveChar` | spymasters-web.py:69 | deleting the backtick character leaves no backtick and keeps every other character with its multiplicity |
| `Text.RemoveAllAbsent` | spymasters-web.py:180 | `replace("www.", "")` on a host without "www." returns it unchanged |
| `Text.RemoveAll` | spymasters-web.py:180 | `replace(part, "")` never lengthens the text |
| `Text.RemoveAllFirstWww` | spymasters-web.py:180 | `replace("www.", "")` keeps the text before the first "www.", drops that occurrence and carries on after it, so every occurrence is removed |
| `Signatures.Scan` | spymasters-web.py:56-61 | each appended name is a table platform that matched and passed the exclusion rule, and the names appear in strictly increasing table position |
| `Signatures.ScanComplete` | spymasters-web.py:57-61 | every table entry from the scan start on that matches and passes the exclusion rule is appended |
| `Signatures.Detect` | spymasters-web.py:39-62 | empty html gives []; every result is a matched table platform; the result follows table order |
| `Signatures.DetectMembership` | spymasters-web.py:57-61 | a platform is reported iff one of its patterns occurs in the lower-cased page and, for WooCommerce, a commerce token does too |
| `Signatures.DetectWithoutExclusion` | spymasters-web.py:58 | a platform other than WooCommerce is reported iff one of its patterns occurs in the lower-cased page |
| `Signatures.DetectNoDuplicates` | spymasters-web.py:56-61 | the result holds no name twice and only names from the table |
| `Signatures.DetectIgnoresCase` | spymasters-web.py:41 | classifying the page and classifying its lower-cased copy give the same result |
| `Signatures.PrimaryIsFirstKept` | spymasters-web.py:43-61 | every table entry before the first reported platform was not matched or was excluded |
| `Signatures.ShopifyIsPrimary` | spymasters-web.py:44 | a Shopify signature makes "Shopify" the first reported platform |
| `Signatures.ShopifyBeforeMagento` | spymasters-web.py:43-61 | with Shopify and Magento signatures both present, both are reported and Shopify comes before Magento |
| `Signatures.WooCommerceExcluded` | spymasters-web.py:59-60 | without cart/carrito/basket/shop/tienda in the page, WooCommerce is never reported |
| `Signatures.CartFragmentsKeepWooCommerce` | spymasters-web.py:47-60 | `wc-cart-fragments` in the page always keeps WooCommerce, because it contains "cart" |
| `Search.SearchQuery` | spymasters-web.py:75 | the search text is the query followed by " tienda oficial" |
| `Search.FirstLink` | spymasters-web.py:71 | the fallback is the first item's link, and is absent exactly when there are no items |
| `Search.AnswerToken` | spymasters-web.py:69 | the cleaned reply's first token is absent exactly when the stripped, backtick-free reply is all whitespace; otherwise it is non-empty, with no whitespace and no backtick |
| `Search.ValidateResults` | spymasters-web.py:67-71 | a first token of the reply that starts with "http" is the answer, whatever the items; in every other case (the model call raised, a blank reply, a non-URL token) the answer is the first item's link, absent when there are no items |
| `Search.AcceptedAnswerIsToken` | spymasters-web.py:69-70 | whenever the first token of the cleaned reply starts with "http", that token is returned for any items; it is the first whitespace-separated token of the stripped, backtick-free reply |
| `Search.NoTokenInBlank` | spymasters-web.py:69 | a reply of only whitespace and backticks has no first token |
| `Search.BlankAnswerFallsBack` | spymasters-web.py:69-71 | an empty or blank reply yields the first item's link |
| `Search.NonUrlAnswerFallsBack` | spymasters-web.py:70 | a first token that does not start with "http" yields the first item's link |
| `Search.BareUrlAccepted` | spymasters-web.py:69-70 | a reply that is a bare URL is returned as it is |
| `Search.QuotedUrlAccepted` | spymasters-web.py:69-70 | a URL in backticks is returned without the backticks |
| `Search.UrlThenProseAccepted` | spymasters-web.py:69-70 | a URL followed by whitespace and more text is returned alone |
| `Search.GoogleSearch` | spymasters-web.py:73-81 | a result exists only for status 200 with "items"; for such a reply the result is the model's answer validated against those items; non-empty items always give a result |
| `Fetch.WithScheme` | spymasters-web.py:89 | the requested URL starts with "http"; it equals the input iff the input starts with "http", and is "https://" + input otherwise |
| `Fetch.WithSchemeIdempotent` | spymasters-web.py:89 | adding the scheme twice is the same as once |
| `Fetch.SchemeAddedToBareUrl` | spymasters-web.py:89 | `example.com/shop` is requested as `https://example.com/shop` |
| `Fetch.GetHtml` | spymasters-web.py:83-96 | html is present iff the request answered 200, with the final URL after redirects; otherwise no html and the URL as requested |
| `Fetch.Retrieved` | spymasters-web.py:125 | `if html:` holds when a page came back and its text is not empty |
| `Fetch.FailedFetchReportsRequest` | spymasters-web.py:92-94 | a non-200 answer gives no page and the requested URL, even when the server redirected |
| `Lookup.LooksLikeUrl` | spymasters-web.py:121 | input is used as a URL exactly when it holds both a '.' and a '/' |
| `Lookup.Classify` | spymasters-web.py:124-132 | Unreachable iff no non-empty page; Detected iff some platform matched, with the first one and the final URL's domain |
| `Lookup.Investigate` | spymasters-web.py:119-134 | nothing happens iff the input is empty; NotFound iff the input is not URL-like and search gave nothing or "" |
| `Lookup.UrlInputSkipsSearch` | spymasters-web.py:121 | input with '.' and '/' is fetched directly, and the search function has no influence |
| `Lookup.NameInputIsSearched` | spymasters-web.py:121-124 | any other input is classified through the URL that search returned |
| `Lookup.BareDomainNotFound` | spymasters-web.py:121-134 | a bare domain without '/' goes to search, and a failed search is NotFound |
| `Lookup.DetectedPlatformMatched` | spymasters-web.py:126-129 | a detected platform is a name from the signature table |
| `Lookup.ShopifyStoreFound` | spymasters-web.py:119-129 | a name resolved to a 200 page with a Shopify signature is Detected as Shopify on the final URL's domain |
| `Lookup.FailedSearchIsNotFound` | spymasters-web.py:73-81 | with `google_search` as resolver, an exception, a non-200 status or a body without "items" gives NotFound |
| `Batch.Pending` | spymasters-web.py:162 | a row is processed when its platform is empty or "nan"; such a row never holds a platform name from the signature table |
| `Batch.ResolvedUrl` | spymasters-web.py:166-170 | a URL already in the row is kept; the URL changes only when it was empty, the brand is present and search gave a non-empty answer, which becomes the URL |
| `Batch.Primary` | spymasters-web.py:172-177 | a primary platform exists iff the URL is non-empty, the page was fetched with a non-empty body and some platform matched; it is the first detected platform, `found[0]` |
| `Batch.HostBrand` | spymasters-web.py:180 | a brand comes from the host exactly when `urlparse` succeeds; it is no longer than the host, and equals it when the host has no "www." |
| `Batch.Enriched` | spymasters-web.py:162-181 | a completed row is unchanged; in a pending row the URL changes only from empty to the search answer, the brand only from empty to the host brand, and the platform only to the primary platform of the resolved URL |
| `Batch.EnrichRows` | spymasters-web.py:157-181 | every row of the table ends as the loop body leaves it |
| `Batch.EnrichRowAt` | spymasters-web.py:158-181 | row i is enriched and no other row changes |
| `Batch.FillUrl` | spymasters-web.py:166-170 | a found URL is written into the row before detection runs |
| `Batch.FillPlatform` | spymasters-web.py:172-177 | the platform cell changes only when the page matched, to the primary platform |
| `Batch.FillBrand` | spymasters-web.py:179-181 | a missing brand is set from the host, and left alone when `urlparse` fails |
| `Batch.CompletedRowUntouched` | spymasters-web.py:162 | a row whose platform is set and is not "nan" stays unchanged |
| `Batch.SearchUrlKept` | spymasters-web.py:166-170 | the URL found by search is kept even when fetching or detection then fails |
| `Batch.GivenUrlKept` | spymasters-web.py:166 | a URL already in the row is never replaced |
| `Batch.PlatformOnlyFromMatch` | spymasters-web.py:172-177 | the platform changes only to the primary platform of the fetched page, and always does when one exists |
| `Batch.EnrichedRowIsComplete` | spymasters-web.py:162-177 | a row that received a platform is no longer pending, so a second run leaves it unchanged |
| `Batch.BrandKept` | spymasters-web.py:179 | a brand already present is never overwritten |
| `Batch.BrandFromPlainHost` | spymasters-web.py:179-181 | a missing brand becomes the host when the host has no "www." |
| `Batch.BrandDropsEveryWww` | spymasters-web.py:180 | host "www.a.www.b" gives the brand "a.b": every "www." is removed |
| `Batch.ShopifyRowFilled` | spymasters-web.py:157-177 | a row ("Acme", "", "") whose search result is a Shopify store ends with that URL and "Shopify" |

## Left out

- The Streamlit interface is not modelled. That covers CSS, logo and favicon, `resource_path`, `st.secrets`, the model configuration, spinners, messages, the progress bar and the status label. All of it is presentation or configuration.
- The HTTP client, the Custom Search API and the Gemini call are oracle parameters. The request headers, the 15-second timeout, `verify=False` and `num: 5` only shape those calls.
- The prompt text built on lines 65-66 is not modelled. The model's answer is an oracle of the query and the items.
- The oracles are functions: the same request always gets the same answer. The real services may answer two identical requests differently.
- Text.Lower: maps only A-Z. Python's `str.lower` also lowers non-ASCII letters, and a few of them (the Kelvin sign, the dotted capital I) lower into ASCII letters that could complete a pattern. The model does not see those matches.
- The internals of Python's `re` are not modelled. Each pattern is a literal substring, and the one character class is written as its four spellings.
- Search items lacking `title`, `link` or `snippet` are not modelled. In Python they raise `KeyError`, which `google_search` turns into no result. Every `Candidate` here has all three fields.
- The single lookup assumes `urlparse` of a final URL never raises (`netloc` is a total function there). The batch path models that failure as an absent host.
- Excel reading and writing, column-name normalisation, `pd.notna` and `str()` of cells are not modelled. A row holds the strings the loop reads, with a missing cell as "".
- Exceptions other than the ones the source catches are not modelled.
