/** The four search functions of tools/search.py: the subscription-token
    guard, the header and query-parameter dicts they build, and how the
    upstream answer or failure becomes the returned dict.

    The HTTP GET and the JSON decoding of its body are not modelled: each
    function hands its request to `fetch`, which stands for
    `requests.get(...).json()` and either yields the decoded body or raises.
    The functions are `async` in the source; here each one is a method that
    runs to completion, and `SearchReply` is the function it is proved
    against. */
module Search {
  import opened Wrappers
  import opened PyValues
  import Base

  const WebUrl := "https://api.search.brave.com/res/v1/web/search"
  const ImageUrl := "https://api.search.brave.com/res/v1/images/search"
  const NewsUrl := "https://api.search.brave.com/res/v1/news/search"
  const VideoUrl := "https://api.search.brave.com/res/v1/videos/search"

  const MissingSubscriptionToken := "Missing Brave subscription token"

  /** One call of a search function with its keyword arguments bound; the
      defaults are those of the Python signatures. */
  datatype SearchCall =
    | WebSearch(
        query: PyValue,
        count: PyValue := Int(5),
        country: PyValue := Null,
        searchLang: PyValue := Null,
        uiLang: PyValue := Null,
        offset: PyValue := Null,
        safesearch: PyValue := Null,
        spellcheck: PyValue := Null,
        freshness: PyValue := Null,
        textDecorations: PyValue := Null,
        resultFilter: PyValue := Null,
        units: PyValue := Null,
        goggles: PyValue := Null,
        extraSnippets: PyValue := Null,
        summary: PyValue := Null,
        enableRichCallback: PyValue := Null,
        xLocLat: PyValue := Null,
        xLocLong: PyValue := Null,
        xLocTimezone: PyValue := Null,
        xLocCity: PyValue := Null,
        xLocState: PyValue := Null,
        xLocStateName: PyValue := Null,
        xLocCountry: PyValue := Null,
        xLocPostalCode: PyValue := Null)
    | ImageSearch(
        query: PyValue,
        count: PyValue := Int(5),
        searchLang: PyValue := Null,
        country: PyValue := Null,
        safesearch: PyValue := Null,
        spellcheck: PyValue := Null)
    | NewsSearch(
        query: PyValue,
        count: PyValue := Int(5),
        searchLang: PyValue := Null,
        uiLang: PyValue := Null,
        country: PyValue := Null,
        safesearch: PyValue := Null,
        offset: PyValue := Null,
        spellcheck: PyValue := Null,
        freshness: PyValue := Null,
        extraSnippets: PyValue := Null,
        goggles: PyValue := Null)
    | VideoSearch(
        query: PyValue,
        count: PyValue := Int(5),
        safesearch: PyValue := Str("off"),
        searchLang: PyValue := Null,
        uiLang: PyValue := Null,
        country: PyValue := Null,
        offset: PyValue := Null,
        spellcheck: PyValue := Null,
        freshness: PyValue := Null)

  /** The GET a search function issues. */
  datatype Request = Request(url: string, headers: map<string, PyValue>, params: map<string, PyValue>)

  /** What `requests.get(...).json()` does: return the decoded body, or
      raise (connection error, timeout, a body that is not JSON). */
  datatype Outcome = Fetched(body: Json) | Raised(message: string)

  /** What a search function did: the request it sent, if any, and the
      dict it returned. */
  datatype Reply = Reply(sent: Option<Request>, result: Json)

  type Pairs = seq<(string, PyValue)>

  // ---------------------------------------------------------------------
  // Adding the supplied optional keys to a dict

  /** The value stored for `v`: the value itself for query parameters,
      `str(v)` for the location headers. */
  function Converted(v: PyValue, stringify: bool): PyValue
  {
    if stringify then Str(PyStr(v)) else v
  }

  /** `d` after `for k, v in pairs: if v is not None: d[k] = v` (or
      `str(v)` when `stringify`). */
  function Present(d: map<string, PyValue>, pairs: Pairs, stringify: bool): map<string, PyValue>
  {
    if pairs == [] then d
    else
      var m := Present(d, pairs[..|pairs| - 1], stringify);
      var (k, v) := pairs[|pairs| - 1];
      if v != Null then m[k := Converted(v, stringify)] else m
  }

  /** The keys of `pairs` whose value is not `None`. */
  function SuppliedKeys(pairs: Pairs): set<string>
  {
    set i | 0 <= i < |pairs| && pairs[i].1 != Null :: pairs[i].0
  }

  function Keys(pairs: Pairs): set<string>
  {
    set i | 0 <= i < |pairs| :: pairs[i].0
  }

  ghost predicate DistinctKeys(pairs: Pairs)
  {
    forall i, j :: 0 <= i < j < |pairs| ==> pairs[i].0 != pairs[j].0
  }

  /** `m` holds exactly the entries of `fixed` plus, for every pair whose
      value is not `None`, that pair's key mapped to its (converted) value. */
  ghost predicate Assembled(m: map<string, PyValue>, fixed: map<string, PyValue>, pairs: Pairs, stringify: bool)
  {
    && m.Keys == fixed.Keys + SuppliedKeys(pairs)
    && (forall k :: k in fixed ==> m[k] == fixed[k])
    && (forall i :: 0 <= i < |pairs| && pairs[i].1 != Null ==> m[pairs[i].0] == Converted(pairs[i].1, stringify))
  }

  lemma SuppliedKeysSnoc(pairs: Pairs)
    requires pairs != []
    ensures SuppliedKeys(pairs) == SuppliedKeys(pairs[..|pairs| - 1])
              + (if pairs[|pairs| - 1].1 != Null then {pairs[|pairs| - 1].0} else {})
  {
    var n := |pairs|;
    var init := pairs[..n - 1];
    forall k | k in SuppliedKeys(pairs)
      ensures k in SuppliedKeys(init) + (if pairs[n - 1].1 != Null then {pairs[n - 1].0} else {})
    {
      var i :| 0 <= i < n && pairs[i].1 != Null && pairs[i].0 == k;
      if i < n - 1 {
        assert init[i] == pairs[i];
      }
    }
    forall k | k in SuppliedKeys(init)
      ensures k in SuppliedKeys(pairs)
    {
      var i :| 0 <= i < n - 1 && init[i].1 != Null && init[i].0 == k;
      assert pairs[i] == init[i];
    }
  }

  /** The fold's keys are the starting keys plus the supplied ones. */
  lemma {:induction false} PresentKeys(d: map<string, PyValue>, pairs: Pairs, stringify: bool)
    ensures Present(d, pairs, stringify).Keys == d.Keys + SuppliedKeys(pairs)
  {
    if pairs != [] {
      PresentKeys(d, pairs[..|pairs| - 1], stringify);
      SuppliedKeysSnoc(pairs);
    }
  }

  /** Entries already in `d` survive the fold when no pair overwrites them. */
  lemma {:induction false} PresentKeepsFixed(d: map<string, PyValue>, pairs: Pairs, stringify: bool)
    requires forall i :: 0 <= i < |pairs| ==> pairs[i].0 !in d
    ensures forall k :: k in d ==> k in Present(d, pairs, stringify) && Present(d, pairs, stringify)[k] == d[k]
  {
    if pairs != [] {
      var init := pairs[..|pairs| - 1];
      assert forall i :: 0 <= i < |init| ==> init[i] == pairs[i];
      PresentKeepsFixed(d, init, stringify);
    }
  }

  /** Each supplied pair ends up in the fold with its converted value,
      provided no later pair has the same key. */
  lemma {:induction false} PresentSupplied(d: map<string, PyValue>, pairs: Pairs, stringify: bool)
    requires DistinctKeys(pairs)
    ensures forall i :: 0 <= i < |pairs| && pairs[i].1 != Null ==>
      pairs[i].0 in Present(d, pairs, stringify)
      && Present(d, pairs, stringify)[pairs[i].0] == Converted(pairs[i].1, stringify)
  {
    if pairs != [] {
      var n := |pairs|;
      var init := pairs[..n - 1];
      assert forall i :: 0 <= i < n - 1 ==> init[i] == pairs[i];
      PresentSupplied(d, init, stringify);
    }
  }

  /** The fold adds exactly the supplied pairs: each supplied key, and no
      other, appears with its value, and the starting entries survive,
      provided the keys are distinct and new to `d` (as they are in every
      list the search functions loop over). */
  lemma PresentAssembled(d: map<string, PyValue>, pairs: Pairs, stringify: bool)
    requires DistinctKeys(pairs)
    requires forall i :: 0 <= i < |pairs| ==> pairs[i].0 !in d
    ensures Assembled(Present(d, pairs, stringify), d, pairs, stringify)
  {
    PresentKeys(d, pairs, stringify);
    PresentKeepsFixed(d, pairs, stringify);
    PresentSupplied(d, pairs, stringify);
  }

  /** The loop `for k, v in pairs: if v is not None: d[k] = v` (with
      `str(v)` when `stringify`), run on a copy of `d`. */
  method AddPresent(d: map<string, PyValue>, pairs: Pairs, stringify: bool) returns (r: map<string, PyValue>)
    ensures r == Present(d, pairs, stringify)
  {
    r := d;
    for i := 0 to |pairs|
      invariant r == Present(d, pairs[..i], stringify)
    {
      assert pairs[..i + 1][..i] == pairs[..i];
      var (k, v) := pairs[i];
      if v != Null {
        r := r[k := Converted(v, stringify)];
      }
    }
    assert pairs[..|pairs|] == pairs;
  }

  // ---------------------------------------------------------------------
  // The request each search function builds

  function Url(call: SearchCall): string
  {
    if call.WebSearch? then WebUrl
    else if call.ImageSearch? then ImageUrl
    else if call.NewsSearch? then NewsUrl
    else VideoUrl
  }

  /** Whether the function returns early when it has no token: image, news
      and video do, web search does not. */
  predicate ChecksToken(call: SearchCall)
  {
    !call.WebSearch?
  }

  /** The parameters every request carries: `q` and `count`, and for video
      search also `safesearch`. */
  function FixedParams(call: SearchCall): map<string, PyValue>
  {
    if call.VideoSearch? then map["q" := call.query, "count" := call.count, "safesearch" := call.safesearch]
    else map["q" := call.query, "count" := call.count]
  }

  /** The `param_list` each function loops over. */
  function ParamList(call: SearchCall): Pairs
  {
    if call.WebSearch? then
      [ ("country", call.country),
        ("search_lang", call.searchLang),
        ("ui_lang", call.uiLang),
        ("offset", call.offset),
        ("safesearch", call.safesearch),
        ("spellcheck", call.spellcheck),
        ("freshness", call.freshness),
        ("text_decorations", call.textDecorations),
        ("result_filter", call.resultFilter),
        ("units", call.units),
        ("goggles", call.goggles),
        ("extra_snippets", call.extraSnippets),
        ("summary", call.summary),
        ("enable_rich_callback", call.enableRichCallback) ]
    else if call.ImageSearch? then
      [ ("search_lang", call.searchLang),
        ("country", call.country),
        ("safesearch", call.safesearch),
        ("spellcheck", call.spellcheck) ]
    else if call.NewsSearch? then
      [ ("search_lang", call.searchLang),
        ("ui_lang", call.uiLang),
        ("country", call.country),
        ("safesearch", call.safesearch),
        ("offset", call.offset),
        ("spellcheck", call.spellcheck),
        ("freshness", call.freshness),
        ("extra_snippets", call.extraSnippets),
        ("goggles", call.goggles) ]
    else
      [ ("search_lang", call.searchLang),
        ("ui_lang", call.uiLang),
        ("country", call.country),
        ("offset", call.offset),
        ("spellcheck", call.spellcheck),
        ("freshness", call.freshness) ]
  }

  /** The location `header_list` of web search; the others send none. */
  function HeaderList(call: SearchCall): Pairs
  {
    if call.WebSearch? then
      [ ("x-loc-lat", call.xLocLat),
        ("x-loc-long", call.xLocLong),
        ("x-loc-timezone", call.xLocTimezone),
        ("x-loc-city", call.xLocCity),
        ("x-loc-state", call.xLocState),
        ("x-loc-state-name", call.xLocStateName),
        ("x-loc-country", call.xLocCountry),
        ("x-loc-postal-code", call.xLocPostalCode) ]
    else []
  }

  /** The header dict before the location headers: the subscription token is
      whatever `get_brave_client()` returned, `None` included. */
  function FixedHeaders(client: Option<string>): map<string, PyValue>
  {
    map[
      "Accept" := Str("application/json"),
      "Accept-Encoding" := Str("gzip"),
      "x-subscription-token" := if client.Some? then Str(client.value) else Null
    ]
  }

  function BuildRequest(call: SearchCall, client: Option<string>): Request
  {
    Request(
      Url(call),
      Present(FixedHeaders(client), HeaderList(call), true),
      Present(FixedParams(call), ParamList(call), false))
  }

  /** The text of the error dict when the request or its decoding fails. */
  function FailureMessage(call: SearchCall): string
  {
    if call.WebSearch? then
      "Could not complete Brave search for query: " + PyStr(call.query)
    else if call.ImageSearch? then
      "Could not complete Brave image search for query: " + PyStr(call.query)
    else if call.NewsSearch? then
      "Could not complete Brave news search for query: " + PyStr(call.query)
    else
      "Could not complete Brave video search for query: " + PyStr(call.query)
  }

  /** `try: return requests.get(...).json() except Exception: return
      {"error": ...}`. */
  function Answer(outcome: Outcome, failure: string): Json
  {
    match outcome
    case Fetched(body) => body
    case Raised(_) => ErrorObject(failure)
  }

  /** Python truthiness of `get_brave_client()`'s result. */
  predicate Truthy(client: Option<string>)
  {
    client.Some? && client.value != ""
  }

  /** What a search function does when the credential context holds `ctx`
      and `BRAVE_API_KEY` is `env`. */
  function SearchReply(call: SearchCall, ctx: Option<string>, env: Option<string>, fetch: Request -> Outcome): Reply
  {
    var client := Base.GetBraveClient(ctx, env);
    if ChecksToken(call) && !Truthy(client) then
      Reply(None, ErrorObject(MissingSubscriptionToken))
    else
      var request := BuildRequest(call, client);
      Reply(Some(request), Answer(fetch(request), FailureMessage(call)))
  }

  // ---------------------------------------------------------------------
  // What the requests contain

  /** The parameter list of every function has distinct keys, none of which
      is among the fixed parameters. */
  lemma ParamListWellFormed(call: SearchCall)
    ensures DistinctKeys(ParamList(call))
    ensures forall i :: 0 <= i < |ParamList(call)| ==> ParamList(call)[i].0 !in FixedParams(call)
  {
    if call.WebSearch? {
      WebParamListWellFormed(call);
    }
  }

  lemma WebParamListWellFormed(call: SearchCall)
    requires call.WebSearch?
    ensures DistinctKeys(ParamList(call))
    ensures forall i :: 0 <= i < |ParamList(call)| ==> ParamList(call)[i].0 !in FixedParams(call)
  {
  }

  /** The location headers have distinct keys, none of which is a fixed
      header. */
  lemma HeaderListWellFormed(call: SearchCall, client: Option<string>)
    ensures DistinctKeys(HeaderList(call))
    ensures forall i :: 0 <= i < |HeaderList(call)| ==> HeaderList(call)[i].0 !in FixedHeaders(client)
  {
  }

  /** The query parameters are exactly `q`, `count` (and `safesearch` for
      video) with the caller's values, plus each optional parameter whose
      argument is not `None`, with that argument unchanged. */
  lemma ParamsAssembled(call: SearchCall, client: Option<string>)
    ensures Assembled(BuildRequest(call, client).params, FixedParams(call), ParamList(call), false)
  {
    ParamListWellFormed(call);
    PresentAssembled(FixedParams(call), ParamList(call), false);
  }

  /** The headers are exactly `Accept`, `Accept-Encoding`,
      `x-subscription-token`, plus, for web search, each location header
      whose argument is not `None`, as `str()` of that argument. */
  lemma HeadersAssembled(call: SearchCall, client: Option<string>)
    ensures Assembled(BuildRequest(call, client).headers, FixedHeaders(client), HeaderList(call), true)
  {
    HeaderListWellFormed(call, client);
    PresentAssembled(FixedHeaders(client), HeaderList(call), true);
  }

  /** An optional query parameter is sent if and only if its argument is not
      `None`, and then with the argument's value. */
  lemma OptionalParamIff(call: SearchCall, client: Option<string>, i: nat)
    requires i < |ParamList(call)|
    ensures var (k, v) := ParamList(call)[i];
      var params := BuildRequest(call, client).params;
      && (k in params <==> v != Null)
      && (v != Null ==> params[k] == v)
  {
    ParamsAssembled(call, client);
    ParamListWellFormed(call);
  }

  /** A location header of web search is sent if and only if its argument is
      not `None`, and then as `str()` of the argument. */
  lemma LocationHeaderIff(call: SearchCall, client: Option<string>, i: nat)
    requires i < |HeaderList(call)|
    ensures var (k, v) := HeaderList(call)[i];
      var headers := BuildRequest(call, client).headers;
      && (k in headers <==> v != Null)
      && (v != Null ==> headers[k] == Str(PyStr(v)))
  {
    HeadersAssembled(call, client);
    HeaderListWellFormed(call, client);
  }

  /** No key is sent beyond the fixed ones and those in the function's own
      lists; the fixed parameters and the three fixed headers are always
      sent, the parameters with the caller's values. */
  lemma RequestKeysDeclared(call: SearchCall, client: Option<string>)
    ensures var params := BuildRequest(call, client).params;
      && params.Keys <= FixedParams(call).Keys + Keys(ParamList(call))
      && (forall k :: k in FixedParams(call) ==> k in params && params[k] == FixedParams(call)[k])
    ensures {"Accept", "Accept-Encoding", "x-subscription-token"}
              <= BuildRequest(call, client).headers.Keys
              <= {"Accept", "Accept-Encoding", "x-subscription-token"} + Keys(HeaderList(call))
    ensures "q" in BuildRequest(call, client).params && BuildRequest(call, client).params["q"] == call.query
    ensures "count" in BuildRequest(call, client).params && BuildRequest(call, client).params["count"] == call.count
  {
    ParamsAssembled(call, client);
    HeadersAssembled(call, client);
  }

  /** With every optional argument `None`, the parameters are exactly the
      fixed ones. */
  lemma {:induction false} OnlyFixedParams(call: SearchCall, client: Option<string>)
    requires forall i :: 0 <= i < |ParamList(call)| ==> ParamList(call)[i].1 == Null
    ensures BuildRequest(call, client).params == FixedParams(call)
  {
    ParamsAssembled(call, client);
    assert SuppliedKeys(ParamList(call)) == {};
  }

  /** Called with the query alone, every function sends `q` and `count` 5,
      video search also `safesearch` "off", and nothing else. */
  lemma DefaultsSendQueryAndFive(q: PyValue, client: Option<string>)
    ensures BuildRequest(WebSearch(q), client).params == map["q" := q, "count" := Int(5)]
    ensures BuildRequest(ImageSearch(q), client).params == map["q" := q, "count" := Int(5)]
    ensures BuildRequest(NewsSearch(q), client).params == map["q" := q, "count" := Int(5)]
    ensures BuildRequest(VideoSearch(q), client).params == map["q" := q, "count" := Int(5), "safesearch" := Str("off")]
  {
    OnlyFixedParams(WebSearch(q), client);
    OnlyFixedParams(ImageSearch(q), client);
    OnlyFixedParams(NewsSearch(q), client);
    OnlyFixedParams(VideoSearch(q), client);
  }

  // ---------------------------------------------------------------------
  // What the search functions return

  /** Image, news and video search send nothing and answer the missing-token
      dict exactly when the client is falsy; web search always sends. */
  lemma TokenGuard(call: SearchCall, ctx: Option<string>, env: Option<string>, fetch: Request -> Outcome)
    ensures var r := SearchReply(call, ctx, env, fetch);
      && (r.sent.None? <==> ChecksToken(call) && !Truthy(Base.GetBraveClient(ctx, env)))
      && (r.sent.None? ==> r.result == ErrorObject(MissingSubscriptionToken))
  {
  }

  /** Web search puts whatever `get_brave_client()` returned into the
      subscription header: `None` when no token was found, "" when the
      context holds the empty string. */
  lemma WebSearchForwardsAnyToken(call: SearchCall, ctx: Option<string>, env: Option<string>, fetch: Request -> Outcome)
    requires call.WebSearch?
    ensures var r := SearchReply(call, ctx, env, fetch);
      var client := Base.GetBraveClient(ctx, env);
      && r.sent.Some?
      && r.sent.value.url == WebUrl
      && "x-subscription-token" in r.sent.value.headers
      && r.sent.value.headers["x-subscription-token"] == (if client.Some? then Str(client.value) else Null)
  {
    HeadersAssembled(call, Base.GetBraveClient(ctx, env));
  }

  /** A guarded function that does send carries the token it found. */
  lemma GuardedSearchSendsToken(call: SearchCall, ctx: Option<string>, env: Option<string>, fetch: Request -> Outcome)
    requires ChecksToken(call)
    ensures var r := SearchReply(call, ctx, env, fetch);
      var client := Base.GetBraveClient(ctx, env);
      r.sent.Some? ==> Truthy(client) && r.sent.value.headers == FixedHeaders(client)
  {
  }

  /** The upstream body is returned unmodified; a failure becomes a one-key
      `error` dict whose message ends with the query. */
  lemma ResultIsBodyOrError(call: SearchCall, ctx: Option<string>, env: Option<string>, fetch: Request -> Outcome)
    ensures var r := SearchReply(call, ctx, env, fetch);
      r.sent.Some? ==>
        match fetch(r.sent.value)
        case Fetched(body) => r.result == body
        case Raised(_) =>
          && r.result == ErrorObject(FailureMessage(call))
          && EndsWith(FailureMessage(call), PyStr(call.query))
  {
    var m := FailureMessage(call);
    var q := PyStr(call.query);
    assert m[|m| - |q|..] == q;
  }

  predicate EndsWith(s: string, suffix: string)
  {
    |suffix| <= |s| && s[|s| - |suffix|..] == suffix
  }

  // ---------------------------------------------------------------------
  // The four search functions

  /** `brave_search`: no token guard; the token goes into the header as is. */
  method BraveSearch(call: SearchCall, ctx: Option<string>, env: Option<string>, fetch: Request -> Outcome)
    returns (sent: Option<Request>, result: Json)
    requires call.WebSearch?
    ensures Reply(sent, result) == SearchReply(call, ctx, env, fetch)
  {
    var headers := FixedHeaders(Base.GetBraveClient(ctx, env));
    headers := AddPresent(headers, HeaderList(call), true);
    var params := map["q" := call.query, "count" := call.count];
    params := AddPresent(params, ParamList(call), false);
    var request := Request(WebUrl, headers, params);
    assert request == BuildRequest(call, Base.GetBraveClient(ctx, env));
    sent := Some(request);
    match fetch(request)
    case Fetched(body) =>
      result := body;
    case Raised(_) =>
      result := ErrorObject("Could not complete Brave search for query: " + PyStr(call.query));
  }

  /** `brave_image_search`. */
  method BraveImageSearch(call: SearchCall, ctx: Option<string>, env: Option<string>, fetch: Request -> Outcome)
    returns (sent: Option<Request>, result: Json)
    requires call.ImageSearch?
    ensures Reply(sent, result) == SearchReply(call, ctx, env, fetch)
  {
    var token := Base.GetBraveClient(ctx, env);
    if token.None? || token.value == "" {
      return None, ErrorObject(MissingSubscriptionToken);
    }
    var headers := FixedHeaders(token);
    var params := map["q" := call.query, "count" := call.count];
    params := AddPresent(params, ParamList(call), false);
    var request := Request(ImageUrl, headers, params);
    assert request == BuildRequest(call, Base.GetBraveClient(ctx, env));
    sent := Some(request);
    match fetch(request)
    case Fetched(body) =>
      result := body;
    case Raised(_) =>
      result := ErrorObject("Could not complete Brave image search for query: " + PyStr(call.query));
  }

  /** `brave_news_search`. */
  method BraveNewsSearch(call: SearchCall, ctx: Option<string>, env: Option<string>, fetch: Request -> Outcome)
    returns (sent: Option<Request>, result: Json)
    requires call.NewsSearch?
    ensures Reply(sent, result) == SearchReply(call, ctx, env, fetch)
  {
    var token := Base.GetBraveClient(ctx, env);
    if token.None? || token.value == "" {
      return None, ErrorObject(MissingSubscriptionToken);
    }
    var headers := FixedHeaders(token);
    var params := map["q" := call.query, "count" := call.count];
    params := AddPresent(params, ParamList(call), false);
    var request := Request(NewsUrl, headers, params);
    assert request == BuildRequest(call, Base.GetBraveClient(ctx, env));
    sent := Some(request);
    match fetch(request)
    case Fetched(body) =>
      result := body;
    case Raised(_) =>
      result := ErrorObject("Could not complete Brave news search for query: " + PyStr(call.query));
  }

  /** `brave_video_search`: `safesearch` is always sent. */
  method BraveVideoSearch(call: SearchCall, ctx: Option<string>, env: Option<string>, fetch: Request -> Outcome)
    returns (sent: Option<Request>, result: Json)
    requires call.VideoSearch?
    ensures Reply(sent, result) == SearchReply(call, ctx, env, fetch)
  {
    var token := Base.GetBraveClient(ctx, env);
    if token.None? || token.value == "" {
      return None, ErrorObject(MissingSubscriptionToken);
    }
    var headers := FixedHeaders(token);
    var params := map["q" := call.query, "count" := call.count, "safesearch" := call.safesearch];
    params := AddPresent(params, ParamList(call), false);
    var request := Request(VideoUrl, headers, params);
    assert request == BuildRequest(call, Base.GetBraveClient(ctx, env));
    sent := Some(request);
    match fetch(request)
    case Fetched(body) =>
      result := body;
    case Raised(_) =>
      result := ErrorObject("Could not complete Brave video search for query: " + PyStr(call.query));
  }
}
