# A verified model of the chat-to-tool news gateway

The gateway has two halves.

- **The Chainlit front end** (`chainlint.py`). A chat model answers each user message. The reply is classified as a tool call or as text. A JSON object is dug out of the text by a greedy regular expression. A tool call is routed to one endpoint of a REST back end. Each turn appends to the session's message list.
- **The REST back end.** The current server (`main_mcp.py`, with `lib/`) and an older one (`mcp_server.py`) serve:
  - NewsAPI and SerpAPI queries;
  - RSS feeds, behind a URL gate that guards against server-side request forgery;
  - an in-memory event calendar;
  - a configuration map loaded from a JSON file over built-in defaults.

The model is written in Dafny, one module per source file:

| module | models |
|---|---|
| `Chainlint` | `chainlint.py`: classification, `extract_json_from_text`, `MCPClient`, `main`, `handle_tool_call` |
| `Utils` | `lib/utils.py`: `validate_url` over a model of `urllib.parse.urlsplit`, `fetch_single_rss_feed` |
| `Services` | `lib/services.py`: the NewsAPI/SerpAPI services, `parse_single_feed`, `fetch_feeds_concurrent` |
| `Config` | `lib/config.py`: defaults, `load_config`, `load_events` |
| `Models` | `lib/models.py`: the request models and their validators |
| `MainMcp` | `main_mcp.py`: the current server's event and configuration routes |
| `McpServer` | `mcp_server.py`: the older server's routes |

Six support modules model the Python and library behaviour the code depends on:

| module | models |
|---|---|
| `Values` | optional values, results, JSON values, HTTP errors |
| `Text` | `str` searching and splitting, `strip`, `str(n)`, `int(s)`, `lower`, string order |
| `DateTime` | `strptime` for `%Y-%m-%d` and `%H:%M`, and day ordinals |
| `IpAddress` | which bracketed hosts `ipaddress.ip_address` accepts |
| `Http` | requests, their outcomes, and a log of requests sent |
| `EventStore` | the event list both servers share: query, stable sort, delete search, new ids |

How the modules are built:

- **Pure code becomes functions.** URL validation, classification and routing, the validators and config loading are functions whose contracts state what the code promises.
- **Code that changes state becomes classes.** The client's connection state, the session's messages and each server's events and config are class fields. Their methods carry `modifies` clauses and state the whole new state.
- **Loops become methods with invariants.** The entry loop, the feed loops, the window filter and the delete search are proved against functions that define their results.
- **The network is a `Transport` object.** It answers each request through a fixed function and logs every request sent. So "no request is made" is a statement about the log.
- **Other outside inputs are parameters.** These are `json.loads`, `feedparser.parse`, `float()`, the clock, the API keys and the chat model's reply.

`mcp_server.py` repeats `load_config`/`load_events` (lines 33-76) and the three API routes (lines 230-311) with the same code as `lib/config.py` and `lib/services.py`. The model uses the `Config` and `Services` members for both.

## Model

| member | source | states |
|---|---|---|
| Chainlint.PyStr | chainlint.py:351 | `str()` of a JSON value: a string is itself, and the text of an integer within the 4300-digit limit reads back through `int()` as that integer. |
| Chainlint.CandidateSpan | chainlint.py:31 | The regex match is the first `{` through the last `}`. It is None exactly when no `}` follows any `{`. |
| Chainlint.JsonCandidate | chainlint.py:31-33 | The matched text starts with `{`, ends with `}` and has at least two characters. |
| Chainlint.CandidateSpansBoth | chainlint.py:30-33 | With two objects in the prose, the candidate is the greedy span from the first object through the last, with everything between. |
| Chainlint.ExtractOutcome | chainlint.py:31-39 | `extract_json_from_text` gives None iff there is no `{` … `}` or the candidate fails to parse. Any value it returns is an object. |
| Chainlint.Classify | chainlint.py:204-232 | A tool call iff the stripped reply parses as an object with `action == "use_tool"`. `tool` is taken as it is (null when absent) and `arguments` defaults to `{}`. A reply that parses to anything else, or that `json.loads` refuses with a JSONDecodeError, is text with the stripped content unchanged. Any other exception of `json.loads` (a ValueError for an integer of more than 4300 digits, a RecursionError for deep nesting) escapes to the outer handler, and the reply becomes the "I'm having trouble connecting to the language model" text. |
| Chainlint.TroubleText | chainlint.py:227-232 | The failure text names the error, the LM Studio base URL and the model. It holds no `{` when none of those does. |
| Chainlint.Catalog | chainlint.py:111-120 | `list_tools` gives eight descriptors, in the fixed order of the tool names. |
| Chainlint.Route | chainlint.py:70-92 | A dispatched call names a listed tool and its URL begins with the base URL. A GET carries the arguments as query parameters and a POST as the body. A query tool is dispatched exactly when httpx can build query parameters from the arguments; otherwise it is refused with httpx's error and no request. Any other tool gets "Unknown tool: <name>" and no request. |
| Chainlint.FirstNonPair | chainlint.py:70-81 | The first item of a parameter list that httpx cannot read as `item[0]`, `item[1]` with a hashable key. Every item before it is a pair; the whole list when all are pairs. |
| Chainlint.ScalarQueryRefused | chainlint.py:68-98 | A number or boolean as the arguments of a GET tool gives `{"error": "'int' object has no attribute 'items'"}` (or `bool`, `float`) with no request. |
| Chainlint.PairListSent | chainlint.py:70-81 | A list of `[key, value]` pairs with string keys is sent as the query parameters. |
| Chainlint.ShortItemRefused | chainlint.py:80-81 | A list item with no `item[1]`, such as `["q"]`, gives "string index out of range" and no request. |
| Chainlint.CatalogIsRouted | chainlint.py:111-120 | The two POST tools are always dispatched. The five GET tools are dispatched iff httpx can encode the arguments. `delete_event` is dispatched iff the arguments are an object with a truthy `event_id`. |
| Chainlint.RouteQueries | chainlint.py:70-81 | The five query tools GET `/news/search`, `/news/headlines`, `/web/search`, `/rss/parse` and `/events` with the arguments as parameters. |
| Chainlint.RouteSubmits | chainlint.py:78-89 | `add_event` POSTs to `/events` and `update_config` POSTs to `/config`, with the arguments as the JSON body. |
| Chainlint.RouteDelete | chainlint.py:82-87 | A non-empty textual id DELETEs `/events/<id>`. A missing id is refused with "event_id is required" and no request. |
| Chainlint.ToolResult | chainlint.py:93-98 | A failed, timed-out or non-2xx request becomes `{"error": message}`. A JSON body is returned as parsed, and a body that does not parse becomes `{"error": message}` with the parser's message. |
| Chainlint.McpClient.constructor | chainlint.py:43-46 | A new client is not connected and lists no tools. |
| Chainlint.McpClient.Default | chainlint.py:235 | The global client uses base URL `http://127.0.0.1:8001`. |
| Chainlint.McpClient.ListTools | chainlint.py:100-123 | One GET of `/resources`. It gives the eight-tool catalog when the server answers and an empty list on any failure, and every tool it lists is one the routing table knows. |
| Chainlint.McpClient.Connect | chainlint.py:48-56 | The client always ends connected, holding what `list_tools` returned, after exactly one request. |
| Chainlint.McpClient.Disconnect | chainlint.py:58-61 | The client is marked not connected and the tool list is kept. |
| Chainlint.McpClient.CallTool | chainlint.py:63-98 | It connects first when not connected. Then it either refuses with no further request or sends exactly the routed request and returns its result. It never raises. |
| Chainlint.CallRequests | chainlint.py:63-92 | At most two requests per `call_tool`, the routed request last when there is one. |
| Chainlint.MainStep | chainlint.py:313-320 | Lines 313-320 as written. A tool-call reply always faults. The handler also faults when nothing is extracted, or when the extracted object lacks `action`, lacks `tool` or `arguments` under `"use_tool"`, or lacks `content` under any other action. A `use_tool` object with both keys gives exactly that tool and those arguments. An answer is the `content` of an extracted object. |
| Chainlint.UnclosedBraceFaults | chainlint.py:313-315 | Text with no `}` extracts nothing, even when it holds a `{`, so the handler faults. |
| Chainlint.UnclosedBraceExample | chainlint.py:313-315 | The reply "see {here" faults in this way. |
| Chainlint.FixedStep | chainlint.py:313-320 | The intended dispatch never faults. A tool-call reply is used as one, and text with nothing extracted is answered as it is. |
| Chainlint.FixedAgreesWhereMainWorks | chainlint.py:313-320 | Wherever the code as written does not fault, the corrected dispatch gives the same turn. |
| Chainlint.ProseReplyFaults | chainlint.py:313-315 | A prose reply with no `{`, which `json.loads` refuses with a JSONDecodeError, faults as written, while the corrected dispatch answers with the text. |
| Chainlint.TroubleReplyFaults | chainlint.py:227-232 | A reply that `json.loads` refuses with another exception, such as a list holding a 5000-digit integer beside a tool request, becomes the failure text. When that text holds no `{`, the turn faults as written and no tool runs. The corrected dispatch shows the failure text. |
| Chainlint.HelloFaults | chainlint.py:313-315 | The reply "Hello!" faults as written. |
| Chainlint.BareToolCallFaults | chainlint.py:212-216 | A reply that is a tool call faults as written (no `content` key), while the corrected dispatch runs the tool. |
| Chainlint.Reaction | chainlint.py:318-320 | A turn appends at most one message, from the assistant, and a faulted turn appends nothing. |
| Chainlint.Conversation.constructor | chainlint.py:241 | A session starts with no messages. |
| Chainlint.Conversation.HandleToolCall | chainlint.py:324-357 | The tool is called: the request log grows by exactly `call_tool`'s requests (the `/resources` GET when not yet connected, then the routed request, if any), and the client ends connected with its tool list stated. Exactly one summary "I used <tool> with arguments <args> and got results." is appended, even for an error result. Nothing is appended when a display raises first. |
| Chainlint.Conversation.Perform | chainlint.py:315-320 | The messages grow by the turn's reaction and by nothing else. A tool call makes exactly its `call_tool` requests; any other turn sends nothing and leaves the client unchanged. |
| Chainlint.Conversation.HandleMessage | chainlint.py:298-322 | The user message is appended first and stays even when the turn faults. Then the as-written turn's reaction is appended, and only a tool-call turn makes requests. |
| Chainlint.Conversation.HandleMessageCorrected | chainlint.py:298-322 | The same with the corrected dispatch. No turn faults, and a tool-call turn makes exactly its `call_tool` requests and leaves the client connected. |
| Chainlint.CorrectedToolCallSent | chainlint.py:210-216 | Under the corrected dispatch, a reply that is only a tool call for a routed tool sends that tool's request, last among its turn's requests. |
| Utils.LStripControls | lib/utils.py:24 | `urlsplit`'s leading strip removes a prefix, leaving text that starts above the space character. |
| Utils.RemoveUnsafe | lib/utils.py:24 | Tab, CR and LF are removed everywhere, and a URL without them is unchanged. |
| Utils.SplitUrl | lib/utils.py:24 | `urlsplit` (CPython 3.11.12, 3.12.9, 3.13.2 and later) up to the network location. An accepted network location has both brackets or neither, and one with both passes `_check_bracketed_netloc`. |
| Utils.SchemeSplit | lib/utils.py:24 | A scheme of scheme characters before the first ':' is split off and lower-cased. |
| Utils.NetlocSplit | lib/utils.py:24 | After "//", the network location runs to the first '/', '?' or '#'. |
| Utils.UrlPieces | lib/utils.py:24 | An ordinary URL is prepared, then split into its scheme and host. |
| Utils.UrlSplits | lib/utils.py:24 | `urlsplit` reads scheme "://" host rest as the lower-cased scheme and that host. |
| Utils.SamePrepared | lib/utils.py:24 | The verdict depends only on the URL after stripping and removing unsafe characters. |
| Utils.LeadingSpaceIgnored | lib/utils.py:24 | A leading space does not change the verdict. |
| Utils.Hostname | lib/utils.py:27 | `parsed.hostname` is None or non-empty. |
| Utils.HostAllowed | lib/utils.py:27-36 | A host passes iff it is none of the three loopback names, starts with neither "192.168." nor "10.", and is not a four-part "172." name whose second part is a non-integer or in 16..31. A missing host passes. |
| Utils.UrlShape | lib/utils.py:21-39 | For an ordinary URL, the verdict is "the lower-cased scheme is http or https, and the lower-cased host passes". |
| Utils.BracketedNetloc | lib/utils.py:24 | How `_check_bracketed_netloc` reads "[h]" followed by nothing. |
| Utils.BracketSplits | lib/utils.py:24 | `urlsplit` of scheme "://[h]" rest errs exactly when the bracketed-host check does. |
| Utils.BracketShape | lib/utils.py:21-39 | For a bracketed host, the verdict is the bracket check, the scheme test and the host test on h. |
| Utils.Ipv4HostRefused | lib/utils.py:24 | Dotted IPv4 text between brackets is refused with the source's message. |
| Utils.Ipv4InBracketsRefused | lib/utils.py:38-39 | A URL such as "http://[127.0.0.2]/" fails the gate, because `urlsplit` raises. |
| Utils.TextBeforeBracket | lib/utils.py:24 | A '[' that is not the first character of the host part is an "Invalid IPv6 URL". |
| Utils.TextBeforeBracketRefused | lib/utils.py:38-39 | A URL such as "http://x[y]/" fails the gate. |
| Utils.PlainHostRefused | lib/utils.py:24 | A host name with no ':' that does not start with 'v' fails `_check_bracketed_host`. |
| Utils.UserinfoNetlocRefused | lib/utils.py:38-39 | The network location "[b]@host" fails the bracketed-netloc check when host is a plain name not starting with 'v'. |
| Utils.UserinfoBracketsRefused | lib/utils.py:38-39 | Brackets that stand only in the user information, as in "http://[::1]@example.com/", still put the host name through the bracketed-host check, so such a URL fails the gate. |
| Utils.UserinfoBracketExample | lib/utils.py:38-39 | "http://[::1]@example.com/" fails the gate. |
| Utils.CompressedIpv6Passes | lib/utils.py:37 | "http://[::1]/" and every "[::x]" with a hextet x pass the gate. The IPv6 loopback is not refused. |
| Utils.SchemeRefused | lib/utils.py:25-26 | A scheme other than http or https, in any case, is refused. |
| Utils.LoopbackRefused | lib/utils.py:27-28 | "localhost", "127.0.0.1" and "0.0.0.0" are refused whatever their case. |
| Utils.PrivatePrefixRefused | lib/utils.py:29-32 | A host beginning "192.168." or "10." is refused. |
| Utils.OrdinaryPasses | lib/utils.py:37 | An http(s) URL whose host is none of the refused names or prefixes passes, and so does one with no host. |
| Utils.PrivatePrefixes | lib/utils.py:29-32 | The prefix test is textual: "10.example.com" is refused like "192.168.1.5". |
| Utils.LoopbackBlockPasses | lib/utils.py:27-37 | Loopback addresses other than 127.0.0.1, such as 127.0.0.2, pass. |
| Utils.Quad172 | lib/utils.py:33-36 | A dotted quad "172.b.c.d" passes iff b reads as an integer outside 16..31. |
| Utils.Block172Refused | lib/utils.py:33-36 | "172.n.c.d" with n in 16..31 is refused. |
| Utils.Outside172Passes | lib/utils.py:33-37 | "172.n.c.d" with n outside 16..31 passes exactly when n has at most 4300 digits. Past that, `int()` raises and the URL is refused. |
| Utils.SliceLength | lib/utils.py:53 | `len(s[:k])` is at most `len(s)`, and for k ≥ 0 it is k or `len(s)`. |
| Utils.SummaryBound | lib/utils.py:52-68 | For a non-negative limit, a summary holds min(limit, n) entries and `total_entries` equals that count. |
| Utils.CollectEntries | lib/utils.py:52-60 | The entry loop gives the first `[:max_entries]` entries in order, each field defaulting to "". |
| Utils.Summarise | lib/utils.py:51-70 | The summary has the feed's title and description, the sliced entries and their count. |
| Utils.FetchRequestsFor | lib/utils.py:45-48 | Fetching one feed sends at most one request. |
| Utils.FetchSingleRssFeed | lib/utils.py:42-72 | The result carries the input URL. An unsafe URL is refused with no request. Otherwise one GET is sent, and the result is the summary or the failure's message. It never raises. |
| Services.EverythingParams | lib/services.py:16-23 | The everything query carries exactly q, language, sortBy, pageSize and apiKey. |
| Services.HeadlinesParams | lib/services.py:41-48 | The headline query carries country, pageSize and apiKey, plus category exactly when it is given and non-empty. |
| Services.SearchParams | lib/services.py:68-76 | The web query carries q, num, api_key and engine "google", plus location exactly when it is given and non-empty. |
| Services.ApiResult | lib/services.py:25-33 | A decoded body iff the request completed and its body parses. 504 iff it timed out. 500, with the message, for any other failure. |
| Services.Query | lib/services.py:25-29 | One GET with the parameters, answered through `ApiResult`. |
| Services.SearchNews | lib/services.py:11-33 | A missing or empty key is 500 with no request. Otherwise exactly one GET of the everything endpoint is sent. |
| Services.GetHeadlines | lib/services.py:36-58 | The same over the top-headlines endpoint and its parameters. |
| Services.SearchWeb | lib/services.py:63-86 | The same over the SerpAPI endpoint and its parameters. |
| Services.ParseSingleFeed | lib/services.py:116-149 | An unsafe URL is 400 before any request. Otherwise one GET: the summary, 504 on a timeout, 500 on any other failure. |
| Services.Processed | lib/services.py:107-111 | A returned result is kept as it is. An exception becomes `{"error": str(exc)}` without a URL. |
| Services.ProcessGathered | lib/services.py:106-111 | One processed item per gathered outcome, in task order. |
| Services.FetchRequests | lib/services.py:102 | The feeds send no more requests than there are URLs. |
| Services.FetchRequestsGated | lib/utils.py:45-48 | Every request sent is a plain GET of one of the URLs, and that URL passes the gate. |
| Services.GatherFeeds | lib/services.py:102-103 | One outcome per URL, in URL order, each the result `fetch_single_rss_feed` promises for that URL. |
| Services.FetchFeedsConcurrent | lib/services.py:91-113 | `len(feeds) == len(feed_urls)` and `total_feeds == len(feeds)`. `feeds[i]` is the result for `feed_urls[i]`. The request log is the gated GETs in order. |
| Config.DefaultConfig | lib/config.py:12-23 | The six default settings with their values: "us", "en", 20, the BBC and CNN feeds, 30.0 and 5. |
| Config.PairOf | lib/config.py:32 | The pair `dict.update` reads from a list element: a two-element list or a two-character string. |
| Config.LeadingPairs | lib/config.py:32 | The pairs `dict.update` applies: those of the leading run of pair elements, in order, up to the first element that is not a pair. |
| Config.UpdatePairs | lib/config.py:32 | Updating from a list keeps every existing key and adds exactly the keys of the leading pairs. Each of those keys holds the value of its last pair, and every other key keeps its value. A list with no pair at its head changes nothing. |
| Config.LoadConfig | lib/config.py:26-40 | Keys from the file's object override the defaults, and the other defaults keep their values. A file holding a list updates the defaults pair by pair, as `Config.UpdatePairs` states. No file, an unreadable file or unparsable text gives the defaults. |
| Config.LoadEvents | lib/config.py:52-61 | The parsed file content when `len()` of it succeeds. Otherwise `[]`, and `[]` only comes from a missing or bad file or a stored empty list. |
| Models.ValidateDate | lib/models.py:12-18 | Accepts exactly what `strptime` reads as `%Y-%m-%d` and returns it unchanged. Anything else gets the date message. |
| Models.ValidateTime | lib/models.py:20-27 | An empty or blank time passes unchanged. Any other passes iff it reads as `%H:%M`. |
| Models.ValidateSetting | lib/models.py:34-42 | Accepts exactly the five allowed settings. |
| Models.NewEventCreate | lib/models.py:5-27 | Valid iff date and time validate. The optional fields default to "". The errors name each failing field. |
| Models.NewConfigUpdate | lib/models.py:30-42 | Valid iff the setting is allowed. |
| Models.BlankTimeAccepted | lib/models.py:22 | A time of spaces passes the validator. |
| DateTime.NumberField | lib/models.py:15 | A matched numeric field lies within its bounds. |
| DateTime.DayField | lib/models.py:15 | A matched day lies in 1..31. |
| DateTime.YearValue | lib/models.py:15 | A four-digit year lies in 0..9999. |
| DateTime.DateOf | lib/models.py:15 | A date built from the fields is a valid calendar date. |
| DateTime.ParseDate | lib/models.py:15 | Whatever `strptime` accepts is a valid date. |
| DateTime.DateShape | lib/models.py:15 | How year-month-day text is read field by field. |
| DateTime.ParsePaddedDate | lib/models.py:15 | A zero-padded date is accepted iff it exists in the calendar. |
| DateTime.ParseFormatDate | lib/models.py:15 | Every valid date is accepted in its ISO spelling, with its own value. |
| DateTime.LeapDay | lib/models.py:15 | February 29 is accepted exactly in leap years. |
| DateTime.ShortFields | lib/models.py:15 | Month and day may be single digits. |
| DateTime.SpacePaddedDay | lib/models.py:15 | The day may be a space and one digit. |
| DateTime.ParseTime | lib/models.py:24 | An accepted time has hour 0..23 and minute 0..59. |
| DateTime.TimeShape | lib/models.py:24 | How hour:minute text is read field by field. |
| DateTime.ParsePaddedTime | lib/models.py:24 | A two-digit time is accepted iff the hour is 0..23 and the minute 0..59. |
| DateTime.ParseFormatTime | lib/models.py:24 | Every valid time round-trips through `%H:%M`. |
| DateTime.ShortHour | lib/models.py:24 | The hour may be a single digit. |
| DateTime.OrdinalOrder | main_mcp.py:161-167 | Day numbers order valid dates as Python's date comparison does. |
| DateTime.MaxOrdinalIsLastDay | main_mcp.py:162 | The last representable day, 9999-12-31, has the largest day number. |
| IpAddress.DecimalOctet | lib/utils.py:24 | `str(n)` of a number up to 255 is an IPv4 octet. |
| IpAddress.QuadIsIPv4 | lib/utils.py:24 | Four octets joined by dots are IPv4 text. |
| IpAddress.BracketedHostError | lib/utils.py:24 | `_check_bracketed_host` passes iff a 'v' host matches IPvFuture, or any other host is IPv6 text and not IPv4 text. |
| IpAddress.CompressedIsIPv6 | lib/utils.py:24 | "::" followed by one hextet is IPv6 text. |
| EventStore.KeyIrreflexive | main_mcp.py:171 | The sort key's order is irreflexive. |
| EventStore.KeyTransitive | main_mcp.py:171 | The sort key's order is transitive. |
| EventStore.KeyTotal | main_mcp.py:171 | Any two sort keys are equal or ordered. |
| EventStore.SortSorted | main_mcp.py:171 | The sorted list is ordered by (date, time or "00:00"). |
| EventStore.SortStable | main_mcp.py:171 | Events with equal keys keep their input order. |
| EventStore.SortFacts | main_mcp.py:171 | The sort is a stable permutation: the same elements, ordered, with equal keys in input order. |
| EventStore.KeepMembers | main_mcp.py:159 | An event is kept by the filter iff it is in the list and passes the test. |
| EventStore.SelectWindow | main_mcp.py:160-170 | The window loop keeps exactly the events whose date parses and lies in [today, today + days], in order. |
| EventStore.QueryEvents | main_mcp.py:153-172 | `get_events`: 400 for a bad date, 500 when the window leaves the calendar, and otherwise the sorted selection. The list is not changed. |
| EventStore.DateQuery | main_mcp.py:154-159 | With a date: exactly the events stored under that date string, as often as stored, sorted stably. |
| EventStore.WindowQuery | main_mcp.py:160-171 | Without a date: exactly the events in the window, as often as stored, sorted stably. |
| EventStore.WindowOverflow | main_mcp.py:162 | A window past the calendar's end is a 500, whatever is stored. |
| EventStore.FirstWithId | main_mcp.py:193-194 | The position of the first event with the id, or None iff no event has it. |
| EventStore.FindEvent | main_mcp.py:193-198 | The `enumerate` search finds exactly that first position. |
| EventStore.PopFirst | main_mcp.py:195 | Popping it removes exactly that event and shortens the list by one. |
| EventStore.NewEventId | main_mcp.py:177 | An id starts with "event_". |
| EventStore.NewEventIdsDiffer | main_mcp.py:177 | Different store sizes give different ids for the same timestamp. |
| MainMcp.CoerceSetting | main_mcp.py:210-220 | The integer settings must parse with `int()`, else 400. `api_timeout` must parse as a float, else 400. Other settings keep their text. |
| MainMcp.IntegerSettingRoundTrip | main_mcp.py:211-213 | An integer setting written as `str(n)` is stored as n. Text of more than 4300 digits is answered with 400. |
| MainMcp.RestServer.constructor | main_mcp.py:31-32 | The server starts with the configuration `load_config` builds and the stored events. |
| MainMcp.RestServer.GetEvents | main_mcp.py:153-172 | The answer is `EventsAnswer` over the current events, and the list is unchanged. |
| MainMcp.RestServer.AddEvent | main_mcp.py:175-189 | One event is appended with id `event_<n+1>_<ts>` and the validated fields. Earlier events and the config are unchanged. |
| MainMcp.RestServer.AddEventRequest | main_mcp.py:174-189 | A body the model rejects gets its messages and stores nothing. Otherwise the event is added as above. |
| MainMcp.RestServer.DeleteEvent | main_mcp.py:191-198 | The first event with the id is removed and returned, and the rest keep their order. With none, 404 and no change. |
| MainMcp.RestServer.UpdateConfig | main_mcp.py:205-225 | A failed conversion is 400 with no change. Otherwise only that key changes, and the old and new values are reported. |
| MainMcp.RestServer.UpdateConfigRequest | main_mcp.py:204-225 | A setting outside the allow-list gets 422 with no change. Otherwise as above. |
| McpServer.EventCheck | mcp_server.py:178-186 | A new event passes iff its date reads and its time is empty or reads as `%H:%M`. Each refusal is 400 with its message. |
| McpServer.BlankTimeHandledDifferently | mcp_server.py:182-186 | A time of spaces passes the request model but is refused here. |
| McpServer.CoerceSetting | mcp_server.py:216-222 | Only the four legacy settings are accepted. `max_articles` must parse as an integer and `api_timeout` as a float, else 400. |
| McpServer.ConcurrencyNotSettable | mcp_server.py:216-217 | `max_concurrent_requests` cannot be set on this server. |
| McpServer.FailureTexts | mcp_server.py:145 | A failed feed is recorded as "504: …" or "500: …". |
| McpServer.ParseRssFeed | mcp_server.py:313-342 | One GET with no URL check: the summary, 504 on a timeout, 500 otherwise. |
| McpServer.FeedRequests | mcp_server.py:140-142 | At most one GET per element of the feed list, in order. |
| McpServer.AllStringsFetched | mcp_server.py:140-142 | A list of strings makes one GET of each, in order. |
| McpServer.NoStringsNothingSent | mcp_server.py:318-320 | A list that holds no string sends nothing, because httpx raises before any request. |
| McpServer.FeedUrls | mcp_server.py:140 | The loop walks the elements of the configured list, whatever they are, or the one-character strings of a configured string. A missing key or a value that is not iterable raises. |
| McpServer.DefaultFeedUrls | mcp_server.py:34-41 | Without a config file, the server walks the two default feeds. |
| McpServer.LegacyServer.constructor | mcp_server.py:86-87 | The server starts with the configuration `load_config` builds and the stored events. |
| McpServer.LegacyServer.GetEvents | mcp_server.py:148-168 | The same `EventsAnswer` as the current server. |
| McpServer.LegacyServer.AddEvent | mcp_server.py:170-199 | A refused date or time is 400 and stores nothing. Otherwise one event is appended with the next id. |
| McpServer.LegacyServer.DeleteEvent | mcp_server.py:201-208 | The first match is popped, or 404 with no change. |
| McpServer.LegacyServer.UpdateConfig | mcp_server.py:214-226 | A refused setting or value is 400 with no change. Otherwise only that key changes, and the old and new values are reported. |
| McpServer.LegacyServer.GetRssFeeds | mcp_server.py:137-146 | Over `config["default_rss_feeds"]`: one result per element, in order. A string element gets the data or the error's text, with one GET. Any other element gets "500: RSS parsing failed: …", makes no request, and the route goes on. It raises, sending nothing, when the feed list cannot be read. |
| McpServer.ListFeeds | mcp_server.py:139-146 | The loop: one result per element, in order, with the request log. |
| McpServer.ListFeed | mcp_server.py:141-145 | One round: a string element is fetched with exactly one GET. Any other element is recorded as the 500 that `parse_rss_feed` makes of httpx's TypeError, with no request. |
| Http.Transport.Send | lib/utils.py:48-49 | Each request is logged and answered by the transport. |
| Text.LStrip | chainlint.py:204 | `lstrip()` removes exactly the leading whitespace. |
| Text.RStrip | chainlint.py:204 | `rstrip()` removes exactly the trailing whitespace. |
| Text.PyIntOfDigits | main_mcp.py:213 | `int()` reads the digits of n as n when there are at most 4300 of them, and refuses more. |
| Text.PyIntOfNegative | main_mcp.py:213 | `int()` reads "-" followed by the digits of m as -m, within the same limit. |
| Text.PyIntOfDecimal | main_mcp.py:213 | `int(str(n)) == n` for every n that `str()` can write out (at most 4300 digits). `int()` refuses longer text. |
| Text.SplitParts | lib/utils.py:34 | `split('.')` loses nothing, its pieces hold no dot, and there is one more piece than there are dots. |
| Text.Lower | lib/utils.py:27 | `lower()` keeps the length and folds each character. |
| Text.LexIrreflexive | main_mcp.py:171 | String order is irreflexive. |
| Text.LexTransitive | main_mcp.py:171 | String order is transitive. |
| Text.LexTotal | main_mcp.py:171 | Any two strings are equal or ordered. |

## Left out

- Services.FetchFeedsConcurrent: the feeds are fetched one after the other, in list order. The source runs them concurrently under `asyncio.Semaphore(max_concurrent)`, so its requests may go out in any order and at most `max_concurrent` at once. Only the order- and length-preserving result list is modelled, and the request log is that of one possible schedule. For a limit of 0 with at least one feed, the source waits forever. For a negative limit, `asyncio.Semaphore` raises ValueError. In both cases the model still returns a result.
- Services.ProcessGathered: a gathered task never raises here, because `fetch_single_rss_feed` catches everything. The `Raised` case is modelled as the source's branch, but no modelled task produces it.
- Text.PyInt: `int()` reads ASCII decimal digits only. Python also accepts other Unicode decimal digits. The digit limit is Python's default of 4300; a limit changed through `sys.set_int_max_str_digits` or `PYTHONINTMAXSTRDIGITS` is not modelled.
- Text.Decimal: `str(n)` writes out every integer. Python raises ValueError for more than 4300 digits. The integers written here are list lengths, timestamps, HTTP statuses and JSON integers, and `json.loads` refuses such long integers itself.
- Chainlint.QueryError: the query-parameter errors are those raised by httpx's `QueryParams` for a dict, str, list or other value, with CPython's exception texts. Only the conversion that can raise is modelled; the encoded query string is not.
- Chainlint.PyStr: it inherits the gap of `Text.Decimal`. Its round trip through `int()` is stated only within the digit limit.
- DateTime.NumberField: `strptime` fields are ASCII digits only. Python's `\d` also matches other Unicode decimal digits.
- DateTime.DayField: ASCII digits only, for the same reason.
- Text.Lower: folds ASCII letters only, while Python's `str.lower()` folds all of Unicode.
- Config.PairOf: a `dict.update` pair must have a string key. JSON list pairs with a number, boolean or null key, which Python would insert, are treated as non-pairs, so the update stops there.
- Config.UpdatePairs: `dict.update` with a JSON object inside the list, whose two keys would be read in dict order, is treated as a non-pair, because key order is not modelled.
- McpServer.FeedUrls: an object value for the feed list is treated as raising. The source iterates its keys in insertion order, which the model's maps do not keep.
- McpServer.ListFeed: the text of the TypeError httpx raises for a non-string URL is a parameter.
- Stored events are typed values: each has an id, a title, a description, a date, an optional time and a location as strings. Stored records that lack "date" or "id", hold non-strings, or hold a null time make the source raise in `get_events` and `delete_event`. These are outside the model.
- The servers' initial events are given as typed values. Decoding the list `Config.LoadEvents` returns into them is not modelled.
- The file writes of `save_config`/`save_events`, the file creation in `load_config`, and all logging are left out as I/O.
- The chat model's network call, `test_connection` and the system prompt are left out. The model takes the reply's text as given.
- The Chainlit `start` handler and the `display_*` rendering are left out. What is kept is whether a display raises before the summary is appended (`Chainlint.DisplayFaults`).
- Environment variables (`NEWSAPI_KEY`, `SERPAPI_KEY`), `validate_env_vars`, `/health` and the constant `/resources` list are left out. The API keys are parameters.
- `datetime.now()`, the timestamp and `isoformat()` are parameters.
- `float()` is a parameter that succeeds or fails. Floating point is not modelled.
- `json.loads` and `feedparser.parse` are parameters. Rendering a dict, list or float with `str()` is a parameter, and dict key order is not modelled.
- FastAPI's routing and request-model mechanics are left out. A validation failure is modelled as a 422 with its messages, and an exception escaping a route as an error result.
- Utils.SplitUrl: the NFKC check on the network location (`_checknetloc`) is left out, because Unicode normalisation is not modelled. It raises only for non-ASCII network locations.
- IpAddress.BracketedHostError: the text of `ip_address`'s error is shortened. Only whether it raises is modelled.
- IpAddress.IpvFuture: the pattern's final `.+` is read as "at least one more character". Python's `.` also refuses a newline, which cannot occur after the unsafe characters have been removed.
- The forwarding routes of `main_mcp.py` (`/news/latest`, `/news/search`, `/news/headlines`, `/web/search`, `/rss/feeds`, `/rss/parse`, lines 80-150) are left out as routes. They only pass query or config values on to the `Services` members, which are modelled.

## Findings

| source | as written | input that shows it | evidently intended | confidence | as-written member | corrected member |
|---|---|---|---|---|---|---|
| chainlint.py:313-315 | `main` indexes `extract_json_from_text(response["content"])["action"]`, and the extraction gives None for text with no braces | the chat model's reply "Hello!": nothing is extracted and `None["action"]` raises TypeError, so the user gets no answer | a prose reply is shown and appended as the assistant's message | high (not executed) | Chainlint.ProseReplyFaults | Chainlint.FixedStep |
| chainlint.py:212-216,313 | `generate_response` returns a `tool_call` dict without "content", and `main` indexes `response["content"]` | a reply that is exactly `{"action": "use_tool", "tool": "get_events", "arguments": {}}`: `KeyError: 'content'`, so the tool is never run | a tool-call reply runs the tool | high (not executed) | Chainlint.BareToolCallFaults | Chainlint.CorrectedToolCallSent |
