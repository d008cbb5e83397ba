/** server.py: the tool catalogue returned on discovery, the `call_tool`
    dispatch with its error wrapping, and the two transport handlers that
    install the caller's credential in the `auth_token` context variable for
    the length of one exchange.

    The MCP framework, Starlette routing and uvicorn are not modelled: an
    exchange (an SSE session driven by `app.run`, or one stateless HTTP
    request handled by the session manager) is a function from the context
    value it observes to how it ended. */
module Server {
  import opened Wrappers
  import opened PyValues
  import opened Search
  import Base

  // ---------------------------------------------------------------------
  // Catalogue (`list_tools`)

  datatype JsonType = StringType | IntegerType | NumberType

  /** One entry of a tool's `inputSchema.properties`; `choices` is its
      `enum`, if it has one. Descriptions are left out. */
  datatype Property = Property(name: string, kind: JsonType, choices: Option<seq<string>>)

  datatype Tool = Tool(name: string, properties: seq<Property>, required: seq<string>)

  const SafesearchLevels := ["off", "moderate", "strict"]

  function Text(name: string): Property { Property(name, StringType, None) }
  function Integer(name: string): Property { Property(name, IntegerType, None) }
  function Number(name: string): Property { Property(name, NumberType, None) }
  function Choice(name: string, choices: seq<string>): Property { Property(name, StringType, Some(choices)) }

  function PropertyNames(tool: Tool): set<string>
  {
    set i | 0 <= i < |tool.properties| :: tool.properties[i].name
  }

  /** The `enum` of the first property called `name` among `properties`. */
  function ChoicesOf(properties: seq<Property>, name: string): Option<seq<string>>
  {
    if properties == [] then None
    else if properties[0].name == name then properties[0].choices
    else ChoicesOf(properties[1..], name)
  }

  const WebTool := Tool("brave_search",
    [ Text("query"), Integer("count"), Text("country"), Text("search_lang"), Text("ui_lang"),
      Integer("offset"), Choice("safesearch", SafesearchLevels), Text("spellcheck"),
      Text("freshness"), Text("text_decorations"), Text("result_filter"),
      Choice("units", ["metric", "imperial"]), Text("goggles"), Text("extra_snippets"),
      Text("summary"), Text("enable_rich_callback"), Number("x_loc_lat"), Number("x_loc_long"),
      Text("x_loc_timezone"), Text("x_loc_city"), Text("x_loc_state"), Text("x_loc_state_name"),
      Text("x_loc_country"), Text("x_loc_postal_code") ],
    ["query"])

  const ImageTool := Tool("brave_image_search",
    [ Text("query"), Integer("count"), Text("search_lang"), Text("country"),
      Choice("safesearch", ["off", "strict"]), Text("spellcheck") ],
    ["query"])

  const NewsTool := Tool("brave_news_search",
    [ Text("query"), Integer("count"), Text("search_lang"), Text("ui_lang"), Text("country"),
      Choice("safesearch", SafesearchLevels), Integer("offset"), Text("spellcheck"),
      Text("freshness"), Text("extra_snippets"), Text("goggles") ],
    ["query"])

  const VideoTool := Tool("brave_video_search",
    [ Text("query"), Integer("count"), Choice("safesearch", SafesearchLevels), Text("search_lang"),
      Text("ui_lang"), Text("country"), Integer("offset"), Text("spellcheck"), Text("freshness") ],
    ["query"])

  /** `list_tools`: the constant catalogue. */
  function ListTools(): seq<Tool>
  {
    [WebTool, ImageTool, NewsTool, VideoTool]
  }

  /** Four tools with distinct names, each requiring only `query`, which
      each declares. */
  lemma CatalogueShape()
    ensures |ListTools()| == 4
    ensures forall i, j :: 0 <= i < j < |ListTools()| ==> ListTools()[i].name != ListTools()[j].name
    ensures forall t :: t in ListTools() ==> t.required == ["query"] && "query" in PropertyNames(t)
  {
    assert WebTool.properties[0].name == "query";
    assert ImageTool.properties[0].name == "query";
    assert NewsTool.properties[0].name == "query";
    assert VideoTool.properties[0].name == "query";
  }

  function ToolNames(): set<string>
  {
    set i | 0 <= i < |ListTools()| :: ListTools()[i].name
  }

  /** The catalogue names exactly the four search tools. */
  lemma CatalogueNames()
    ensures ToolNames() == {"brave_search", "brave_image_search", "brave_news_search", "brave_video_search"}
  {
    assert ListTools()[0].name == "brave_search";
    assert ListTools()[1].name == "brave_image_search";
    assert ListTools()[2].name == "brave_news_search";
    assert ListTools()[3].name == "brave_video_search";
  }

  /** The lookup finds the first property with the name it looks for. */
  lemma {:induction false} ChoicesOfFirst(properties: seq<Property>, name: string, i: nat)
    requires i < |properties| && properties[i].name == name
    requires forall j :: 0 <= j < i ==> properties[j].name != name
    ensures ChoicesOf(properties, name) == properties[i].choices
  {
    if i > 0 {
      ChoicesOfFirst(properties[1..], name, i - 1);
    }
  }

  /** A name no property has has no choices. */
  lemma {:induction false} ChoicesOfUndeclared(properties: seq<Property>, name: string)
    requires forall j :: 0 <= j < |properties| ==> properties[j].name != name
    ensures ChoicesOf(properties, name) == None
  {
    if properties != [] {
      ChoicesOfUndeclared(properties[1..], name);
    }
  }

  /** Image search offers the `safesearch` levels `off` and `strict`; web,
      news and video search offer `off`, `moderate` and `strict`. */
  lemma SafesearchChoices()
    ensures ChoicesOf(WebTool.properties, "safesearch") == Some(["off", "moderate", "strict"])
    ensures ChoicesOf(ImageTool.properties, "safesearch") == Some(["off", "strict"])
    ensures ChoicesOf(NewsTool.properties, "safesearch") == Some(["off", "moderate", "strict"])
    ensures ChoicesOf(VideoTool.properties, "safesearch") == Some(["off", "moderate", "strict"])
  {
    ChoicesOfFirst(WebTool.properties, "safesearch", 6);
    ChoicesOfFirst(ImageTool.properties, "safesearch", 4);
    ChoicesOfFirst(NewsTool.properties, "safesearch", 5);
    ChoicesOfFirst(VideoTool.properties, "safesearch", 2);
  }

  /** Only web search declares `units`, with the values `metric` and
      `imperial`. */
  lemma UnitsChoices()
    ensures ChoicesOf(WebTool.properties, "units") == Some(["metric", "imperial"])
    ensures ChoicesOf(ImageTool.properties, "units") == None
    ensures ChoicesOf(NewsTool.properties, "units") == None
    ensures ChoicesOf(VideoTool.properties, "units") == None
  {
    ChoicesOfFirst(WebTool.properties, "units", 11);
    ChoicesOfUndeclared(ImageTool.properties, "units");
    ChoicesOfUndeclared(NewsTool.properties, "units");
    ChoicesOfUndeclared(VideoTool.properties, "units");
  }

  // ---------------------------------------------------------------------
  // Dispatch (`call_tool`)

  /** `arguments.get(key)`. */
  function Get(arguments: map<string, PyValue>, key: string): PyValue
  {
    if key in arguments then arguments[key] else Null
  }

  /** `str(KeyError("query"))`. */
  const QueryKeyError := "'query'"

  /** `str()` of the `TypeError` that `json.dumps` raises on a coroutine. */
  const CoroutineNotSerializable := "Object of type coroutine is not JSON serializable"

  /** The tool name whose branch binds `call`. */
  function ToolName(call: SearchCall): string
  {
    if call.WebSearch? then "brave_search"
    else if call.ImageSearch? then "brave_image_search"
    else if call.NewsSearch? then "brave_news_search"
    else "brave_video_search"
  }

  /** The `if`/`elif` chain on the tool name and the keyword arguments each
      branch passes: `None` when no branch matches, the `KeyError` of
      `arguments["query"]` when the query is missing, otherwise the bound
      call. Every other argument is read with `.get`. */
  function Bind(name: string, arguments: map<string, PyValue>): Option<Result<SearchCall>>
  {
    if name == "brave_search" then
      Some(if "query" !in arguments then Failure(QueryKeyError) else Success(WebCall(arguments)))
    else if name == "brave_image_search" then
      Some(if "query" !in arguments then Failure(QueryKeyError) else Success(ImageCall(arguments)))
    else if name == "brave_news_search" then
      Some(if "query" !in arguments then Failure(QueryKeyError) else Success(NewsCall(arguments)))
    else if name == "brave_video_search" then
      Some(if "query" !in arguments then Failure(QueryKeyError) else Success(VideoCall(arguments)))
    else None
  }

  /** The keyword arguments of the `brave_search` branch. */
  function WebCall(arguments: map<string, PyValue>): SearchCall
    requires "query" in arguments
  {
    WebSearch(
      arguments["query"],
      count := Get(arguments, "count"),
      country := Get(arguments, "country"),
      searchLang := Get(arguments, "search_lang"),
      uiLang := Get(arguments, "ui_lang"),
      offset := Get(arguments, "offset"),
      safesearch := Get(arguments, "safesearch"),
      spellcheck := Get(arguments, "spellcheck"),
      freshness := Get(arguments, "freshness"),
      textDecorations := Get(arguments, "text_decorations"),
      resultFilter := Get(arguments, "result_filter"),
      units := Get(arguments, "units"),
      goggles := Get(arguments, "goggles"),
      extraSnippets := Get(arguments, "extra_snippets"),
      summary := Get(arguments, "summary"),
      enableRichCallback := Get(arguments, "enable_rich_callback"),
      xLocLat := Get(arguments, "x_loc_lat"),
      xLocLong := Get(arguments, "x_loc_long"),
      xLocTimezone := Get(arguments, "x_loc_timezone"),
      xLocCity := Get(arguments, "x_loc_city"),
      xLocState := Get(arguments, "x_loc_state"),
      xLocStateName := Get(arguments, "x_loc_state_name"),
      xLocCountry := Get(arguments, "x_loc_country"),
      xLocPostalCode := Get(arguments, "x_loc_postal_code"))
  }

  /** The keyword arguments of the `brave_image_search` branch. */
  function ImageCall(arguments: map<string, PyValue>): SearchCall
    requires "query" in arguments
  {
    ImageSearch(
      arguments["query"],
      count := Get(arguments, "count"),
      searchLang := Get(arguments, "search_lang"),
      country := Get(arguments, "country"),
      safesearch := Get(arguments, "safesearch"),
      spellcheck := Get(arguments, "spellcheck"))
  }

  /** The keyword arguments of the `brave_news_search` branch. */
  function NewsCall(arguments: map<string, PyValue>): SearchCall
    requires "query" in arguments
  {
    NewsSearch(
      arguments["query"],
      count := Get(arguments, "count"),
      searchLang := Get(arguments, "search_lang"),
      uiLang := Get(arguments, "ui_lang"),
      country := Get(arguments, "country"),
      safesearch := Get(arguments, "safesearch"),
      offset := Get(arguments, "offset"),
      spellcheck := Get(arguments, "spellcheck"),
      freshness := Get(arguments, "freshness"),
      extraSnippets := Get(arguments, "extra_snippets"),
      goggles := Get(arguments, "goggles"))
  }

  /** The keyword arguments of the `brave_video_search` branch. */
  function VideoCall(arguments: map<string, PyValue>): SearchCall
    requires "query" in arguments
  {
    VideoSearch(
      arguments["query"],
      count := Get(arguments, "count"),
      safesearch := Get(arguments, "safesearch"),
      searchLang := Get(arguments, "search_lang"),
      uiLang := Get(arguments, "ui_lang"),
      country := Get(arguments, "country"),
      offset := Get(arguments, "offset"),
      spellcheck := Get(arguments, "spellcheck"),
      freshness := Get(arguments, "freshness"))
  }

  /** `types.TextContent(type="text", text=...)`. */
  datatype TextContent = TextContent(text: string)

  /** `call_tool` with the search awaited: the dict the search function
      returns, serialised by `dumps` (standing for `json.dumps(..., indent=2)`),
      or `"Error: " + str(e)` for an exception raised in the `try`; `None`
      when the name matches no branch, since the `if`/`elif` chain has no
      `else` and the function no final `return`. `ctx` is the credential context the
      call runs under. */
  function CallTool(
    name: string, arguments: map<string, PyValue>,
    ctx: Option<string>, env: Option<string>, fetch: Request -> Outcome, dumps: Json -> string
  ): Option<seq<TextContent>>
  {
    match Bind(name, arguments)
    case None => None
    case Some(Failure(e)) => Some([TextContent("Error: " + e)])
    case Some(Success(call)) => Some([TextContent(dumps(SearchReply(call, ctx, env, fetch).result))])
  }

  /** `call_tool` as written: the `async` search function is called without
      `await`, so `json.dumps` receives a coroutine, raises `TypeError`, and
      the `except` branch answers. The search itself never runs. */
  function CallToolAsWritten(name: string, arguments: map<string, PyValue>): Option<seq<TextContent>>
  {
    match Bind(name, arguments)
    case None => None
    case Some(Failure(e)) => Some([TextContent("Error: " + e)])
    case Some(Success(_)) => Some([TextContent("Error: " + CoroutineNotSerializable)])
  }

  /** A name outside the catalogue matches no branch and `call_tool`
      returns `None`; a catalogued name always gets a list. */
  lemma UnknownToolAnswersNothing(
    name: string, arguments: map<string, PyValue>,
    ctx: Option<string>, env: Option<string>, fetch: Request -> Outcome, dumps: Json -> string)
    ensures CallTool(name, arguments, ctx, env, fetch, dumps).None? <==> name !in ToolNames()
    ensures CallToolAsWritten(name, arguments).None? <==> name !in ToolNames()
  {
    CatalogueNames();
  }

  /** Every call of a catalogued tool, successful or not, answers exactly
      one text item. */
  lemma KnownToolAnswersOnce(
    name: string, arguments: map<string, PyValue>,
    ctx: Option<string>, env: Option<string>, fetch: Request -> Outcome, dumps: Json -> string)
    requires name in ToolNames()
    ensures var r := CallTool(name, arguments, ctx, env, fetch, dumps); r.Some? && |r.value| == 1
    ensures var r := CallToolAsWritten(name, arguments); r.Some? && |r.value| == 1
  {
    CatalogueNames();
  }

  /** A missing `query` is a `KeyError` raised inside the `try`; it becomes
      an error item, never an exception out of `call_tool`. */
  lemma MissingQueryIsError(
    name: string, arguments: map<string, PyValue>,
    ctx: Option<string>, env: Option<string>, fetch: Request -> Outcome, dumps: Json -> string)
    requires name in ToolNames() && "query" !in arguments
    ensures CallTool(name, arguments, ctx, env, fetch, dumps) == Some([TextContent("Error: 'query'")])
    ensures CallToolAsWritten(name, arguments) == Some([TextContent("Error: 'query'")])
  {
    CatalogueNames();
    assert "Error: " + QueryKeyError == "Error: 'query'";
  }

  /** With the search awaited, a catalogued tool called with a query runs
      the search function of the same name and answers the serialised dict
      it returns. */
  lemma KnownToolAnswersDump(
    name: string, arguments: map<string, PyValue>,
    ctx: Option<string>, env: Option<string>, fetch: Request -> Outcome, dumps: Json -> string)
    requires name in ToolNames() && "query" in arguments
    ensures Bind(name, arguments).Some? && Bind(name, arguments).value.Success?
    ensures var call := Bind(name, arguments).value.value;
      && ToolName(call) == name
      && CallTool(name, arguments, ctx, env, fetch, dumps) == Some([TextContent(dumps(SearchReply(call, ctx, env, fetch).result))])
  {
    CatalogueNames();
  }

  /** As written, a catalogued tool called with a query always answers the
      serialisation error, whatever the credential and the upstream do. */
  lemma AsWrittenAnswersSerializationError(name: string, arguments: map<string, PyValue>)
    requires name in ToolNames() && "query" in arguments
    ensures CallToolAsWritten(name, arguments) == Some([TextContent("Error: " + CoroutineNotSerializable)])
  {
    CatalogueNames();
  }

  /** An input on which the code as written and the awaited version differ:
      a web search for "x" whose upstream answers `{}`. */
  lemma AsWrittenLosesSearchResult()
    ensures var arguments := map["query" := Str("x")];
      var fetch := (r: Request) => Fetched(JObject(map[]));
      var dumps := (j: Json) => if j == JObject(map[]) then "{}" else "?";
      && CallTool("brave_search", arguments, Some("T"), None, fetch, dumps) == Some([TextContent("{}")])
      && CallToolAsWritten("brave_search", arguments) != Some([TextContent("{}")])
  {
  }

  /** `s` with every `-` replaced by `_`: a location header's key turned
      into the name of the argument that feeds it. */
  function Underscored(s: string): string
  {
    seq(|s|, i requires 0 <= i < |s| => if s[i] == '-' then '_' else s[i])
  }

  /** The location header keys are the argument names with `_` for `-`. */
  lemma LocationKeysUnderscored()
    ensures Underscored("x-loc-lat") == "x_loc_lat"
    ensures Underscored("x-loc-long") == "x_loc_long"
    ensures Underscored("x-loc-timezone") == "x_loc_timezone"
    ensures Underscored("x-loc-city") == "x_loc_city"
    ensures Underscored("x-loc-state") == "x_loc_state"
    ensures Underscored("x-loc-state-name") == "x_loc_state_name"
    ensures Underscored("x-loc-country") == "x_loc_country"
    ensures Underscored("x-loc-postal-code") == "x_loc_postal_code"
  {
  }

  /** Each branch passes every argument under its own name: the query
      as given, and every other argument as `arguments.get(key)`, so an
      absent one arrives as `None`, not as the function's default. */
  lemma ArgumentsForwarded(name: string, arguments: map<string, PyValue>, call: SearchCall)
    requires Bind(name, arguments) == Some(Success(call))
    ensures "query" in arguments && call.query == arguments["query"]
    ensures call.count == Get(arguments, "count")
    ensures call.VideoSearch? ==> call.safesearch == Get(arguments, "safesearch")
    ensures forall i :: 0 <= i < |ParamList(call)| ==> ParamList(call)[i].1 == Get(arguments, ParamList(call)[i].0)
    ensures forall i :: 0 <= i < |HeaderList(call)| ==> HeaderList(call)[i].1 == Get(arguments, Underscored(HeaderList(call)[i].0))
  {
    if call.WebSearch? {
      WebArgumentsForwarded(arguments);
    }
  }

  lemma WebArgumentsForwarded(arguments: map<string, PyValue>)
    requires "query" in arguments
    ensures var call := WebCall(arguments);
      && (forall i :: 0 <= i < |ParamList(call)| ==> ParamList(call)[i].1 == Get(arguments, ParamList(call)[i].0))
      && (forall i :: 0 <= i < |HeaderList(call)| ==> HeaderList(call)[i].1 == Get(arguments, Underscored(HeaderList(call)[i].0)))
  {
    LocationKeysUnderscored();
  }

  /** On the server path the declared default `count=5` (and video's
      `safesearch="off"`) is never used: an absent argument is sent as
      `None`. */
  lemma ServerPathSendsNoneForAbsentCount(
    name: string, arguments: map<string, PyValue>,
    ctx: Option<string>, env: Option<string>, fetch: Request -> Outcome)
    requires name in ToolNames() && "query" in arguments && "count" !in arguments
    ensures Bind(name, arguments).Some? && Bind(name, arguments).value.Success?
    ensures var call := Bind(name, arguments).value.value;
      var r := SearchReply(call, ctx, env, fetch);
      && (r.sent.Some? ==> "count" in r.sent.value.params && r.sent.value.params["count"] == Null)
      && (r.sent.Some? && call.VideoSearch? && "safesearch" !in arguments ==>
            "safesearch" in r.sent.value.params && r.sent.value.params["safesearch"] == Null)
  {
    CatalogueNames();
    var call := Bind(name, arguments).value.value;
    ArgumentsForwarded(name, arguments, call);
    RequestKeysDeclared(call, Base.GetBraveClient(ctx, env));
  }

  // ---------------------------------------------------------------------
  // Transports (`handle_sse`, `handle_streamable_http`)

  /** `auth_token or ""`: a missing header becomes the empty credential. */
  function HeaderCredential(header: Option<string>): (credential: string)
    ensures header.Some? ==> credential == header.value
    ensures credential == "" <==> header.None? || header.value == ""
  {
    if header.Some? then header.value else ""
  }

  /** `dict(raw).get(name)`: building a dict from a header list keeps, for a
      repeated name, the value that comes last. */
  function LastHeader(raw: seq<(string, string)>, name: string): (v: Option<string>)
    ensures v.None? <==> forall i :: 0 <= i < |raw| ==> raw[i].0 != name
  {
    if raw == [] then None
    else if raw[|raw| - 1].0 == name then Some(raw[|raw| - 1].1)
    else
      var v := LastHeader(raw[..|raw| - 1], name);
      assert forall i :: 0 <= i < |raw| - 1 ==> raw[..|raw| - 1][i] == raw[i];
      v
  }

  /** A header found is the value of the last entry with that name. */
  lemma {:induction false} LastHeaderIsLast(raw: seq<(string, string)>, name: string)
    requires LastHeader(raw, name).Some?
    ensures exists i :: 0 <= i < |raw| && raw[i] == (name, LastHeader(raw, name).value)
                          && forall j :: i < j < |raw| ==> raw[j].0 != name
  {
    var n := |raw|;
    if raw[n - 1].0 != name {
      var init := raw[..n - 1];
      LastHeaderIsLast(init, name);
      var i :| 0 <= i < |init| && init[i] == (name, LastHeader(init, name).value)
                && forall j :: i < j < |init| ==> init[j].0 != name;
      assert raw[i] == init[i];
      assert forall j :: i < j < n - 1 ==> raw[j] == init[j];
    }
  }

  /** How an exchange ended: normally, or by an exception propagating out
      of the transport. */
  datatype Exit = Completed | Failed(error: string)

  /** `handle_sse`: install the `x-auth-token` header (or "") for the length
      of one SSE session and reset it in `finally`. The session is
      `exchange`, which sees the context value the tools will read; whether
      it completes or raises, the reset runs and the context is as before. */
  method HandleSse(context: Base.AuthTokenContext, header: Option<string>, exchange: Option<string> -> Exit)
    returns (exit: Exit)
    requires context.Valid()
    modifies context
    ensures context.Valid()
    ensures context.value == old(context.value) && context.pending == old(context.pending)
    ensures exit == exchange(Some(HeaderCredential(header)))
  {
    var token := context.Set(HeaderCredential(header));
    exit := exchange(context.value);
    context.Reset(token);
  }

  /** `handle_streamable_http`: the same discipline for one stateless HTTP
      request, with the credential taken from the raw ASGI header list. */
  method HandleStreamableHttp(context: Base.AuthTokenContext, raw: seq<(string, string)>, exchange: Option<string> -> Exit)
    returns (exit: Exit)
    requires context.Valid()
    modifies context
    ensures context.Valid()
    ensures context.value == old(context.value) && context.pending == old(context.pending)
    ensures exit == exchange(Some(HeaderCredential(LastHeader(raw, "x-auth-token"))))
  {
    var authToken := LastHeader(raw, "x-auth-token");
    var token := context.Set(HeaderCredential(authToken));
    exit := exchange(context.value);
    context.Reset(token);
  }

  /** Inside an exchange without an `x-auth-token` header the context holds
      "", which counts as set: `BRAVE_API_KEY` is never consulted, and the
      guarded searches answer the missing-token dict whatever it holds. */
  lemma HeaderlessExchangeIgnoresEnvironment(
    name: string, arguments: map<string, PyValue>, env: Option<string>,
    fetch: Request -> Outcome, dumps: Json -> string)
    requires name in {"brave_image_search", "brave_news_search", "brave_video_search"}
    requires "query" in arguments
    ensures CallTool(name, arguments, Some(HeaderCredential(None)), env, fetch, dumps)
              == Some([TextContent(dumps(ErrorObject(MissingSubscriptionToken)))])
  {
  }

  /** A news search for "spacex" restricted to the past day, in an exchange
      whose header carries "T1": the request goes to the news endpoint with
      the token, `q`, `count` as `None` and `freshness`, and the answer is
      the dump of whatever came back. */
  lemma NewsScenario(fetch: Request -> Outcome, dumps: Json -> string, env: Option<string>)
    ensures var arguments := map["query" := Str("spacex"), "freshness" := Str("pd")];
      var request := Request(NewsUrl, FixedHeaders(Some("T1")),
                             map["q" := Str("spacex"), "count" := Null, "freshness" := Str("pd")]);
      CallTool("brave_news_search", arguments, Some(HeaderCredential(Some("T1"))), env, fetch, dumps)
        == Some([TextContent(dumps(Answer(fetch(request), "Could not complete Brave news search for query: " + "spacex")))])
  {
    var arguments := map["query" := Str("spacex"), "freshness" := Str("pd")];
    var call := NewsSearch(Str("spacex"), count := Null, freshness := Str("pd"));
    assert Bind("brave_news_search", arguments) == Some(Success(call));
    NewsScenarioRequest(call);
    assert Base.GetBraveClient(Some("T1"), env) == Some("T1");
  }

  lemma NewsScenarioRequest(call: SearchCall)
    requires call == NewsSearch(Str("spacex"), count := Null, freshness := Str("pd"))
    ensures BuildRequest(call, Some("T1"))
              == Request(NewsUrl, FixedHeaders(Some("T1")),
                         map["q" := Str("spacex"), "count" := Null, "freshness" := Str("pd")])
  {
    var pairs := ParamList(call);
    ParamsAssembled(call, Some("T1"));
    assert pairs[6] == ("freshness", Str("pd"));
    assert forall i :: 0 <= i < |pairs| && i != 6 ==> pairs[i].1 == Null;
    assert SuppliedKeys(pairs) == {"freshness"};
  }

}
