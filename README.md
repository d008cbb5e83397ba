# Brave Search MCP server: a Dafny model

This project models the deterministic core of a Python MCP server that
forwards tool calls to the Brave Search HTTP API. It covers three parts.

- **Credential lookup** (`tools/base.py`). The `auth_token` context
  variable is consulted first, then `BRAVE_API_KEY`, then a
  `RuntimeError`. `get_brave_client` turns that error into `None`. The
  context variable itself is the class `Base.AuthTokenContext`, with
  Python's `set`/`reset` token discipline.
- **The four search functions** (`tools/search.py`): web, image, news and
  video.
  - The subscription-token guard applies to image, news and video only.
  - The fixed header and parameter dicts.
  - The loops that add each optional key whose argument is not `None`
    (`Search.AddPresent`, proved against the fold `Search.Present`).
  - The `{"error": ...}` dict returned when the request or its decoding
    fails.
  - Each function is a method proved equal to the specification function
    `Search.SearchReply`. Every property of the requests and answers is
    proved about that function.
- **The server** (`server.py`).
  - The constant `list_tools` catalogue.
  - The `call_tool` dispatch with its `try`/`except` wrapping.
  - The two transport handlers, which install the `x-auth-token` header in
    the context for one exchange and reset it in `finally`.

How the outside world enters the model:

- The HTTP request and the JSON decoding of its body are a parameter
  `fetch: Request -> Outcome`. It either yields the decoded body or raises.
- `json.dumps` is a parameter `dumps: Json -> string`.
- The environment variable and the context value are parameters of the
  functions that read them.
- An MCP exchange is a parameter `exchange: Option<string> -> Exit`. It is
  a function of the credential the tools will see.

Python values are `PyValues.PyValue`. `None` is `Null`, and `.get` of an
absent key gives `Null`.

Where the code's comments and docstrings suggest otherwise, the model
follows the code:

- A missing `x-auth-token` header sets the context to `""`, although the
  comments say `None` is allowed there. The empty string counts as *set*, so `BRAVE_API_KEY` is never consulted inside an exchange (server.py:582, 615; tools/base.py:16-17).
- `call_tool` passes every optional argument with `.get`. With the search
  awaited (`Server.CallTool`), an absent `count` is therefore sent as
  `None`, never as the declared default 5. The same holds for video's
  `safesearch`, never sent as `"off"`. As written, no search is made at
  all (see Findings).
- The video function declares `count=5`, although its doc comment says 20.
- Web search has no token guard. It sends whatever `get_brave_client`
  returned, `None` or `""` included, in `x-subscription-token`.

## Model

| member | source | states |
|---|---|---|
| Base.GetAuthToken | tools/base.py:14-22 | a context value, `""` included, is returned as is; otherwise a non-empty `BRAVE_API_KEY`; otherwise the `RuntimeError` message; success exactly when one of the first two applies |
| Base.GetBraveClient | tools/base.py:24-34 | `None` exactly when `get_auth_token` raises, otherwise exactly its token; the error never propagates |
| Base.ContextShadowsEnvironment | tools/base.py:15-17 | once the context is set, the client is that value whatever the environment holds |
| Base.ClientMissingIff | tools/base.py:18-22 | the client is missing iff the context is unset and the environment value is missing or empty |
| Base.AuthTokenContext.constructor | tools/base.py:12 | the variable starts unset with no outstanding tokens |
| Base.AuthTokenContext.Set | server.py:582 | the variable holds the new value; the fresh token remembers the value it replaced |
| Base.AuthTokenContext.Reset | server.py:591 | the variable holds again the value remembered by the token, and the token is used up |
| PyValues.ErrorObject | tools/search.py:139 | the error answer is a dict with the single key `error` mapped to the message |
| Search.PresentKeys | tools/search.py:105-107 | after the optional-key loop the keys are the starting keys plus those whose value is not `None` |
| Search.PresentKeepsFixed | tools/search.py:128-130 | the loop leaves the starting entries unchanged when no listed key collides with them |
| Search.PresentSupplied | tools/search.py:128-130 | every pair whose value is not `None` ends up in the dict with its value (`str(v)` for headers) |
| Search.PresentAssembled | tools/search.py:105-107 | the dict after the loop is exactly the starting dict plus the supplied pairs with their converted values |
| Search.AddPresent | tools/search.py:128-130 | the in-place loop computes the fold `Present`, whose meaning `PresentAssembled` states |
| Search.ParamListWellFormed | tools/search.py:112-127 | every parameter list has distinct keys, none of them `q`, `count` or video's `safesearch` |
| Search.HeaderListWellFormed | tools/search.py:95-104 | the location headers have distinct keys that are not fixed headers |
| Search.ParamsAssembled | tools/search.py:109-130 | the params are exactly the fixed ones plus each optional parameter whose argument is not `None`, unchanged |
| Search.HeadersAssembled | tools/search.py:88-107 | the headers are exactly the three fixed ones plus each location header whose argument is not `None`, as `str()` of it |
| Search.OptionalParamIff | tools/search.py:128-130 | an optional parameter is sent iff its argument is not `None`, and then with that value |
| Search.LocationHeaderIff | tools/search.py:105-107 | an `x-loc-*` header is sent iff its argument is not `None`, and then as `str()` of it |
| Search.RequestKeysDeclared | tools/search.py:109-127 | no key is sent beyond the fixed and listed ones; `q` is the query and `count` the count argument; the fixed parameters and the three fixed headers are always sent |
| Search.OnlyFixedParams | tools/search.py:382-394 | with every optional argument `None`, the params are exactly the fixed ones |
| Search.DefaultsSendQueryAndFive | tools/search.py:317-318 | called with the query alone, each function sends `q` and `count` 5, and video also `safesearch` "off" |
| Search.TokenGuard | tools/search.py:179-182 | image, news and video send nothing and answer the missing-token dict iff the client is falsy; web search always sends |
| Search.WebSearchForwardsAnyToken | tools/search.py:88-92 | web search sends the client as found in `x-subscription-token`: `None` when missing, `""` when empty |
| Search.GuardedSearchSendsToken | tools/search.py:185-189 | a guarded function that sends carries a truthy token and exactly the fixed headers |
| Search.ResultIsBodyOrError | tools/search.py:133-139 | the upstream body is returned unmodified; a failure becomes the one-key error dict, whose message ends with the query |
| Search.Present | tools/search.py:128-130 | no contract; the fold over the pairs that the loops compute, whose meaning `PresentKeys`, `PresentKeepsFixed`, `PresentSupplied` and `PresentAssembled` give |
| Search.BuildRequest | tools/search.py:88-130 | no contract; the URL, headers and params a search function sends, whose meaning `ParamsAssembled`, `HeadersAssembled`, `OptionalParamIff`, `LocationHeaderIff` and `RequestKeysDeclared` give |
| Search.Answer | tools/search.py:133-139 | no contract; the body or the error dict, whose meaning `ResultIsBodyOrError` gives |
| Search.SearchReply | tools/search.py:9-403 | no contract; what a search function sends and returns, whose meaning `TokenGuard`, `WebSearchForwardsAnyToken`, `GuardedSearchSendsToken` and `ResultIsBodyOrError` give, and which the four methods below are proved to compute |
| Search.BraveSearch | tools/search.py:9-139 | the method's request and answer are those of `SearchReply` for a web call |
| Search.BraveImageSearch | tools/search.py:142-213 | the method's request and answer are those of `SearchReply` for an image call |
| Search.BraveNewsSearch | tools/search.py:216-312 | the method's request and answer are those of `SearchReply` for a news call |
| Search.BraveVideoSearch | tools/search.py:315-403 | the method's request and answer are those of `SearchReply` for a video call |
| Server.CatalogueShape | server.py:64-477 | four tools with distinct names, each requiring exactly `query`, which each declares |
| Server.CatalogueNames | server.py:66-477 | the catalogue names exactly `brave_search`, `brave_image_search`, `brave_news_search` and `brave_video_search` |
| Server.SafesearchChoices | server.py:123-420 | the `safesearch` enum is off/strict for images and off/moderate/strict for web, news and video |
| Server.UnitsChoices | server.py:165-167 | only web search declares `units`, with metric/imperial |
| Server.ListTools | server.py:64-477 | no contract; the constant catalogue, whose meaning `CatalogueShape`, `CatalogueNames`, `SafesearchChoices` and `UnitsChoices` give |
| Server.Bind | server.py:484-565 | no contract; the `if`/`elif` chain and each branch's `arguments["query"]`, whose meaning `UnknownToolAnswersNothing`, `MissingQueryIsError`, `KnownToolAnswersDump` and `ArgumentsForwarded` give |
| Server.WebCall | server.py:487-510 | no contract; the keyword binding of the `brave_search` branch, whose meaning `ArgumentsForwarded` gives |
| Server.ImageCall | server.py:520-525 | no contract; the keyword binding of the `brave_image_search` branch, whose meaning `ArgumentsForwarded` gives |
| Server.NewsCall | server.py:535-545 | no contract; the keyword binding of the `brave_news_search` branch, whose meaning `ArgumentsForwarded` gives |
| Server.VideoCall | server.py:555-563 | no contract; the keyword binding of the `brave_video_search` branch, whose meaning `ArgumentsForwarded` gives |
| Server.CallTool | server.py:479-568 | no contract; `call_tool` with the search awaited, whose meaning `UnknownToolAnswersNothing`, `KnownToolAnswersOnce`, `MissingQueryIsError` and `KnownToolAnswersDump` give |
| Server.CallToolAsWritten | server.py:479-568 | no contract; `call_tool` as written, whose meaning `UnknownToolAnswersNothing`, `KnownToolAnswersOnce`, `MissingQueryIsError` and `AsWrittenAnswersSerializationError` give |
| Server.UnknownToolAnswersNothing | server.py:484-568 | `call_tool` returns `None` (no list at all) exactly when the name is outside the catalogue, both awaited and as written |
| Server.KnownToolAnswersOnce | server.py:512-515 | every call of a catalogued tool answers a list of exactly one text item, both awaited and as written |
| Server.MissingQueryIsError | server.py:487 | a missing `query` becomes the item `Error: 'query'` instead of an exception |
| Server.KnownToolAnswersDump | server.py:486-512 | with the search awaited, a catalogued tool with a query runs the search of the same name and answers the dump of its result |
| Server.AsWrittenAnswersSerializationError | server.py:512-515 | as written, every catalogued call with a query answers the coroutine serialisation error |
| Server.AsWrittenLosesSearchResult | server.py:486-512 | a concrete call on which the code as written and the awaited version answer differently |
| Server.ArgumentsForwarded | server.py:486-510 | each branch passes the query as given and every other argument as `arguments.get(key)`, under the matching parameter name |
| Server.ServerPathSendsNoneForAbsentCount | server.py:488 | with the search awaited (`CallTool`), an absent `count` (and an absent video `safesearch`) is sent as `None`, not as the default |
| Server.HeaderCredential | server.py:582 | the credential is the header value, or `""` exactly when the header is absent or empty |
| Server.LastHeader | server.py:609-610 | no value exactly when no header has the name |
| Server.LastHeaderIsLast | server.py:609-610 | the value found is that of the last header with the name, as `dict()` of a pair list keeps |
| Server.HandleSse | server.py:575-593 | the session sees the header credential, and on every exit the context is restored |
| Server.HandleStreamableHttp | server.py:603-619 | the request sees the credential of the last `x-auth-token` header (or `""`), and on every exit the context is restored |
| Server.HeaderlessExchangeIgnoresEnvironment | server.py:579-582 | with the search awaited (`CallTool`), inside a headerless exchange image, news and video searches answer the missing-token dict whatever `BRAVE_API_KEY` holds |
| Server.NewsScenario | server.py:534-550 | with the search awaited (`CallTool`), a news search for "spacex" over the past day under token T1 sends exactly `q`, `count` None and `freshness` to the news endpoint, and answers the dump of the outcome |

## Left out

- The HTTP GET (`requests.get`) and `response.json()` are foreign I/O. They are the `fetch` parameter; the URL strings are kept only as constants.
- `json.dumps(..., indent=2)` is the opaque parameter `dumps`. Its exact text is not modelled.
- The MCP framework, Starlette routing and lifespan, uvicorn, the click options, logging and dotenv are process plumbing. None of it is modelled.
- An exchange run by `app.run` or by the session manager is modelled only through the credential it observes. Its messages are not modelled.
- Cross-task isolation of the `ContextVar` is concurrency and is not modelled. One context's `set`/`reset` sequence is.
- Coroutines are not modelled: each search function runs to completion as a method. The missing `await` is modelled only by its effect (see Findings).
- Free-text descriptions, each schema's top-level `"type": "object"` and `TextContent`'s `type="text"` are omitted. Names, each property's JSON type, enums and required lists are kept.
- Float arguments (such as `x_loc_lat`) are carried as the text `str()` gives them.
- List and dict argument values are not modelled. An argument is `None`, a string, an integer, a boolean or a float.
- `requests` omits `None`-valued params and headers when it encodes the request. The model describes the dicts the functions build, not the bytes on the wire.
- Server.HandleStreamableHttp: header names and values are strings. The UTF-8 decoding of the raw header bytes is not modelled.
- Base.AuthTokenContext.Reset: requires an outstanding token. Python raises for a token used twice, which neither handler does.
- Server.HandleSse: the `Response()` returned after the session is not modelled, only how the exchange ended.

## Findings

| source | as written | input that shows it | evidently intended | confidence | as-written member | corrected member |
|---|---|---|---|---|---|---|
| server.py:486-512 (also 519-527, 534-547, 554-565) | the `async` search functions are called without `await`, so `result` is a coroutine and `json.dumps(result)` raises `TypeError`; every call with a query answers `Error: Object of type coroutine is not JSON serializable` and no search is made | `call_tool("brave_search", {"query": "x"})` with an upstream answering `{}` | `result = await brave_search(...)`, answering the dump of the search result | high if `tools` re-exports the `async` functions of tools/search.py (tools/__init__.py is not part of this model); not executed | Server.AsWrittenLosesSearchResult | Server.KnownToolAnswersDump |
