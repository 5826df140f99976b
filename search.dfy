/** Brand-to-URL resolution: `google_search` asks the Custom Search API for
    "<brand> tienda oficial" and hands the result items to
    `ai_validate_results`, which asks a language model for the official
    store and parses its free-text answer, falling back to the first
    result. The two services are oracles: their answers are parameters. */
module Search {
  import opened Text

  /** One search result item: `title`, `link`, `snippet`. */
  datatype Candidate = Candidate(title: string, link: string, snippet: string)

  /** What the search request produced: an exception (network error,
      undecodable JSON), or a status code with the decoded body's `items`
      (None when the body has no "items" key). */
  datatype ApiResponse = ApiFailed | ApiReply(status: int, items: Option<seq<Candidate>>)

  /** The text sent to the search API as `q`. */
  function SearchQuery(query: string): (q: string)
    ensures StartsWith(q, query) && q[|query|..] == " tienda oficial"
  {
    query + " tienda oficial"
  }

  /** `response.text.strip().replace("`", "").split()[0]`: None where
      `split()` yields nothing and indexing it raises. */
  function AnswerToken(text: string): (r: Option<string>)
    ensures r.None? <==> AllSpace(RemoveChar(Strip(text), '`'))
    ensures r.Some? ==> r.value != [] && '`' !in r.value && forall i :: 0 <= i < |r.value| ==> !IsSpace(r.value[i])
  {
    var cleaned := RemoveChar(Strip(text), '`');
    var tok := FirstToken(cleaned);
    if tok.None? then None
    else
      var k :| TokenAt(cleaned, tok.value, k);
      TokenWithout(cleaned, tok.value, k, '`');
      tok
  }

  /** A token of a text without `c` has no `c` either. */
  lemma TokenWithout(s: string, tok: string, k: int, c: char)
    requires TokenAt(s, tok, k) && c !in s
    ensures c !in tok
  {
    assert forall i :: 0 <= i < |tok| ==> tok[i] == s[k + i];
  }

  /** The `except` branch `search_items[0]['link']`; an empty item list
      raises IndexError there, which leaves the function: None. */
  function FirstLink(items: seq<Candidate>): (r: Option<string>)
    ensures r.Some? <==> items != []
    ensures r.Some? ==> r.value == items[0].link
  {
    if items == [] then None else Some(items[0].link)
  }

  /** `ai_validate_results`: `reply` is the model's answer text, or None
      when `generate_content` (or reading its text) raised. The first token
      of the cleaned answer is taken when it starts with "http"; every other
      case falls back to the first item's link. */
  function ValidateResults(reply: Option<string>, items: seq<Candidate>): (r: Option<string>)
    ensures r.Some? ==> StartsWith(r.value, "http") || (items != [] && r.value == items[0].link)
    ensures items != [] ==> r.Some?
    ensures r.Some? && !StartsWith(r.value, "http") ==> r == FirstLink(items)
    ensures reply.Some? && AnswerToken(reply.value).Some? && StartsWith(AnswerToken(reply.value).value, "http") ==>
              r == AnswerToken(reply.value)
    ensures !(reply.Some? && AnswerToken(reply.value).Some? && StartsWith(AnswerToken(reply.value).value, "http")) ==>
              r == FirstLink(items)
  {
    match reply
    case None => FirstLink(items)
    case Some(text) =>
      match AnswerToken(text)
      case Some(tok) => if StartsWith(tok, "http") then Some(tok) else FirstLink(items)
      case None => FirstLink(items)
  }

  /** A first token that starts with "http" is the answer, whatever the
      items: a whitespace-free, backtick-free token of the model's text. */
  lemma AcceptedAnswerIsToken(text: string, items: seq<Candidate>)
    requires AnswerToken(text).Some? && StartsWith(AnswerToken(text).value, "http")
    ensures ValidateResults(Some(text), items) == AnswerToken(text)
    ensures exists k :: TokenAt(RemoveChar(Strip(text), '`'), ValidateResults(Some(text), items).value, k)
    ensures '`' !in ValidateResults(Some(text), items).value
  {
  }

  /** A text made only of whitespace and backticks has no token. */
  lemma NoTokenInBlank(text: string)
    requires forall i :: 0 <= i < |text| ==> IsSpace(text[i]) || text[i] == '`'
    ensures AnswerToken(text) == None
  {
    var stripped := Strip(text);
    StripIsInfix(text);
    var a :| 0 <= a <= |text| && OccursAt(text, stripped, a);
    assert forall i :: 0 <= i < |stripped| ==> stripped[i] == text[a + i];
    RemoveCharLeavesSpace(stripped, '`');
  }

  /** An empty or blank answer, or one whose first token is not a URL,
      yields the first item's link. */
  lemma BlankAnswerFallsBack(text: string, items: seq<Candidate>)
    requires forall i :: 0 <= i < |text| ==> IsSpace(text[i]) || text[i] == '`'
    ensures ValidateResults(Some(text), items) == FirstLink(items)
  {
    NoTokenInBlank(text);
  }

  lemma NonUrlAnswerFallsBack(text: string, items: seq<Candidate>)
    requires AnswerToken(text).Some? && !StartsWith(AnswerToken(text).value, "http")
    ensures ValidateResults(Some(text), items) == FirstLink(items)
  {
  }

  /** A URL token without whitespace or backticks; what the model is
      asked to answer with. */
  predicate CleanUrl(u: string) {
    StartsWith(u, "http") && '`' !in u && forall i :: 0 <= i < |u| ==> !IsSpace(u[i])
  }

  /** Answering with a bare URL picks that URL, whatever the items. */
  lemma {:induction false} BareUrlAccepted(u: string, items: seq<Candidate>)
    requires CleanUrl(u)
    ensures ValidateResults(Some(u), items) == Some(u)
  {
    assert u != [] && !IsSpace(u[0]) && !IsSpace(u[|u| - 1]);
    assert TrimStart(u) == u;
    assert TrimEnd(u) == u;
    RemoveCharAbsent(u, '`');
    FirstTokenOfWord(u, []);
    assert u + [] == u;
  }

  /** Answering with a URL in backticks (Markdown code) picks the URL. */
  lemma {:induction false} QuotedUrlAccepted(u: string, items: seq<Candidate>)
    requires CleanUrl(u)
    ensures ValidateResults(Some("`" + u + "`"), items) == Some(u)
  {
    var text := "`" + u + "`";
    assert text[0] == '`' && text[|text| - 1] == '`';
    assert Strip(text) == text;
    BackticksRemoved(u);
    FirstTokenOfWord(u, []);
    assert u + [] == u;
  }

  lemma BackticksRemoved(u: string)
    requires '`' !in u
    ensures RemoveChar("`" + u + "`", '`') == u
  {
    RemoveCharConcat("`" + u, "`", '`');
    RemoveCharConcat("`", u, '`');
    RemoveCharAbsent(u, '`');
    assert RemoveChar("`", '`') == [];
  }

  /** A URL followed by whitespace and further prose picks the URL. */
  lemma {:induction false} UrlThenProseAccepted(u: string, rest: string, items: seq<Candidate>)
    requires CleanUrl(u) && '`' !in rest && rest != [] && IsSpace(rest[0])
    ensures ValidateResults(Some(u + rest), items) == Some(u)
  {
    var text := u + rest;
    assert text[0] == u[0];
    assert TrimStart(text) == text;
    TrimEndAfterWord(u, rest);
    var tail := TrimEnd(rest);
    assert Strip(text) == u + tail;
    assert '`' !in tail by {
      assert forall i :: 0 <= i < |tail| ==> tail[i] == rest[i];
    }
    assert '`' !in u + tail;
    RemoveCharAbsent(u + tail, '`');
    FirstTokenOfWord(u, tail);
  }

  /** `google_search(query)`: `api` answers a search for a `q` text, and
      `ask` is the model's answer for the query and the items found (None
      where the call raised). None on an exception, on a status other than
      200 and when the body has no "items"; otherwise the validated answer. */
  function GoogleSearch(query: string, api: string -> ApiResponse,
                        ask: (string, seq<Candidate>) -> Option<string>): (r: Option<string>)
    ensures r.Some? ==> api(SearchQuery(query)).ApiReply? && api(SearchQuery(query)).status == 200 &&
                        api(SearchQuery(query)).items.Some?
    ensures r.Some? ==> StartsWith(r.value, "http") || r == FirstLink(api(SearchQuery(query)).items.value)
    ensures (api(SearchQuery(query)).ApiReply? && api(SearchQuery(query)).status == 200 &&
             api(SearchQuery(query)).items.Some? && api(SearchQuery(query)).items.value != []) ==> r.Some?
    ensures (api(SearchQuery(query)).ApiReply? && api(SearchQuery(query)).status == 200 &&
             api(SearchQuery(query)).items.Some?) ==>
              r == ValidateResults(ask(query, api(SearchQuery(query)).items.value), api(SearchQuery(query)).items.value)
  {
    match api(SearchQuery(query))
    case ApiFailed => None
    case ApiReply(status, items) =>
      if status != 200 then None
      else if items.None? then None
      else ValidateResults(ask(query, items.value), items.value)
  }
}
