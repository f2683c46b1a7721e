/** The chat front end: how a language-model reply is classified as a tool
    call or text, how a JSON object is dug out of prose, how a tool name is
    routed to one REST endpoint of the back end, and how each turn of the
    conversation is appended to the session's message list. */
module Chainlint {
  import opened Values
  import opened Text
  import opened Http

  // ---------------------------------------------------------------- str()

  /** Python's `type(x).__name__` for a parsed JSON value. */
  function TypeName(j: Json): string
  {
    match j
    case JNull => "NoneType"
    case JBool(_) => "bool"
    case JInt(_) => "int"
    case JReal(_) => "float"
    case JString(_) => "str"
    case JArray(_) => "list"
    case JObject(_) => "dict"
  }

  /** Python's `str(x)` (what an f-string shows). Scalars are spelled out;
      floats, lists and dicts are rendered by `render`, which stands for
      Python's repr of those. */
  function PyStr(j: Json, render: Json -> string): (s: string)
    ensures j.JString? ==> s == j.s
    ensures j.JInt? && StrFits(j.i) ==> PyInt(s) == Some(j.i)
  {
    match j
    case JNull => "None"
    case JBool(b) => if b then "True" else "False"
    case JInt(i) => PyIntOfDecimal(i); Decimal(i)
    case JString(s) => s
    case _ => render(j)
  }

  // ------------------------------------------------ extract_json_from_text

  /** The match of the regular expression `(\{.*\})` under DOTALL: the
      first `{` of the text through the last `}`, when a `}` follows it. */
  function CandidateSpan(text: string): (r: Option<(nat, nat)>)
    ensures r.Some? ==>
      && r.value.0 < r.value.1 < |text|
      && text[r.value.0] == '{' && (forall k :: 0 <= k < r.value.0 ==> text[k] != '{')
      && text[r.value.1] == '}' && (forall k :: r.value.1 < k < |text| ==> text[k] != '}')
    ensures r.None? <==> forall i, k :: 0 <= i < k < |text| && text[i] == '{' ==> text[k] != '}'
  {
    match IndexOf(text, '{')
    case None => None
    case Some(i) =>
      match LastIndexOf(text, '}')
      case None => None
      case Some(j) => if i < j then Some((i, j)) else None
  }

  function JsonCandidate(text: string): (r: Option<string>)
    ensures r.Some? ==> 2 <= |r.value| && r.value[0] == '{' && r.value[|r.value| - 1] == '}'
  {
    match CandidateSpan(text)
    case None => None
    case Some((i, j)) => Some(text[i..j + 1])
  }

  /** The match is greedy, not a balanced-brace scan: with two objects in
      the prose, the candidate runs from the start of the first to the end
      of the last, with everything between. */
  lemma CandidateSpansBoth(pre: string, first: string, mid: string, last: string, post: string)
    requires forall k :: 0 <= k < |pre| ==> pre[k] != '{'
    requires first != [] && first[0] == '{'
    requires last != [] && last[|last| - 1] == '}'
    requires forall k :: 0 <= k < |post| ==> post[k] != '}'
    ensures JsonCandidate(pre + first + mid + last + post) == Some(first + mid + last)
  {
    var text := pre + first + mid + last + post;
    var i := |pre|;
    var j := |pre + first + mid + last| - 1;
    assert text[i] == '{' && text[j] == '}';
    var span := CandidateSpan(text);
    assert span.Some?;
    var (a, b) := span.value;
    assert a == i && b == j;
    assert text[i..j + 1] == first + mid + last;
  }

  /** `extract_json_from_text`: the candidate as `json.loads` reads it, or
      None when there is no candidate or it does not parse. */
  function ExtractJson(text: string, parse: JsonParser): Option<Json>
  {
    match JsonCandidate(text)
    case None => None
    case Some(c) =>
      match parse(c)
      case Ok(v) => Some(v)
      case Err(_) => None
  }

  /** What is known of `json.loads`: a text that starts with `{` can only
      parse to an object. */
  ghost predicate ObjectsFromBraces(parse: JsonParser)
  {
    forall s: string :: s != [] && s[0] == '{' && parse(s).Ok? ==> parse(s).value.JObject?
  }

  /** Nothing is extracted exactly when there is no `{` with a `}` after it
      or the candidate does not parse; what is extracted is an object. */
  lemma ExtractOutcome(text: string, parse: JsonParser)
    requires ObjectsFromBraces(parse)
    ensures ExtractJson(text, parse).None? <==>
      (forall i, k :: 0 <= i < k < |text| && text[i] == '{' ==> text[k] != '}')
      || parse(JsonCandidate(text).value).Err?
    ensures ExtractJson(text, parse).Some? ==> ExtractJson(text, parse).value.JObject?
  {
    var c := JsonCandidate(text);
    if c.Some? {
      assert c.value != [] && c.value[0] == '{';
    }
  }

  // ------------------------------------------- generate_response, classify

  datatype Reply = ToolCall(tool: Json, arguments: Json) | TextReply(content: string)

  predicate IsToolRequest(j: Json)
  {
    j.JObject? && Field(j.fields, "action") == Some(JString("use_tool"))
  }

  /** The two settings of `LLMClient` that its failure text names. They
      come from the environment (LM_STUDIO_BASE_URL, LM_STUDIO_MODEL). */
  datatype LlmClient = LlmClient(baseUrl: string, model: string)

  /** The client built with no environment overrides. */
  function DefaultLlm(): LlmClient
  {
    LlmClient("http://192.168.68.110:23232/v1", "qwen/qwen3-14b")
  }

  /** The text `generate_response` returns in place of the reply when an
      exception other than a JSONDecodeError escapes. */
  function TroubleText(llm: LlmClient, error: string): (t: string)
    ensures '{' !in error && '{' !in llm.baseUrl && '{' !in llm.model ==> '{' !in t
  {
    TroubleHead() + error + TroubleMiddle() + llm.baseUrl + "\n2. Model '" + llm.model + "' is loaded\n3. Server is accessible"
  }

  function TroubleHead(): (t: string)
    ensures '{' !in t
  {
    var a, b, c := "I'm having trouble ", "connecting to the ", "language model. Error: ";
    assert '{' !in a && '{' !in b && '{' !in c;
    a + b + c
  }

  function TroubleMiddle(): (t: string)
    ensures '{' !in t
  {
    "\n\nPlease check:\n1. LM Studio is running on "
  }

  /** The classification at the end of `generate_response`: the stripped
      reply is a tool call only when all of it parses as an object whose
      `action` is "use_tool"; `tool` is taken as it is (None when absent)
      and `arguments` defaults to an empty object. A JSONDecodeError or a
      parse that is not a tool request leaves the text unchanged; any other
      exception of `json.loads` escapes to the outer handler, which
      replaces the reply with the failure text. */
  function Classify(raw: string, parse: JsonParser, llm: LlmClient): (r: Reply)
    ensures r.ToolCall? <==> parse(Strip(raw)).Ok? && IsToolRequest(parse(Strip(raw)).value)
    ensures r.ToolCall? ==>
      var fields := parse(Strip(raw)).value.fields;
      r.tool == FieldOr(fields, "tool", JNull) && r.arguments == FieldOr(fields, "arguments", JObject(map[]))
    ensures parse(Strip(raw)).Ok? && !IsToolRequest(parse(Strip(raw)).value) ==> r == TextReply(Strip(raw))
    ensures parse(Strip(raw)).Err? && parse(Strip(raw)).error.DecodeError? ==> r == TextReply(Strip(raw))
    ensures parse(Strip(raw)).Err? && parse(Strip(raw)).error.OtherError? ==>
      r == TextReply(TroubleText(llm, parse(Strip(raw)).error.message))
  {
    var content := Strip(raw);
    match parse(content)
    case Ok(v) =>
      if IsToolRequest(v) then ToolCall(FieldOr(v.fields, "tool", JNull), FieldOr(v.fields, "arguments", JObject(map[])))
      else TextReply(content)
    case Err(DecodeError(_)) => TextReply(content)
    case Err(OtherError(m)) => TextReply(TroubleText(llm, m))
  }

  // ------------------------------------------------------- MCPClient

  datatype ToolInfo = ToolInfo(name: string, description: string)

  /** The eight tools of the back end. */
  const ToolNames: seq<string> :=
    ["search_news", "get_top_headlines", "search_web", "parse_rss_feed",
     "add_event", "get_events", "delete_event", "update_config"]

  /** The fixed list `list_tools` returns once the server answers: one
      descriptor per tool, in this order. */
  function Catalog(): (tools: seq<ToolInfo>)
    ensures |tools| == |ToolNames| && forall i :: 0 <= i < |tools| ==> tools[i].name == ToolNames[i]
  {
    [ ToolInfo("search_news", "Search for news articles using NewsAPI"),
      ToolInfo("get_top_headlines", "Get top headlines from NewsAPI"),
      ToolInfo("search_web", "Search the web using SerpAPI"),
      ToolInfo("parse_rss_feed", "Parse and retrieve articles from RSS feed"),
      ToolInfo("add_event", "Add an event to the calendar"),
      ToolInfo("get_events", "Get events from the calendar"),
      ToolInfo("delete_event", "Delete an event from the calendar"),
      ToolInfo("update_config", "Update server configuration") ]
  }

  predicate Catalogued(tool: Json)
  {
    tool.JString? && tool.s in ToolNames
  }

  /** Where `call_tool` sends a tool call, or the error dictionary it
      returns without sending anything. */
  datatype Routing = Dispatch(request: Request) | Refuse(error: string)

  function Query(url: string, args: Json): Request { Request(Get, url, Some(args), None) }
  function Submit(url: string, args: Json): Request { Request(Post, url, None, Some(args)) }

  /** The five tools `call_tool` sends as a GET with `params=arguments`. */
  const QueryTools: seq<string> :=
    ["search_news", "get_top_headlines", "search_web", "parse_rss_feed", "get_events"]

  predicate IsQueryTool(tool: Json)
  {
    tool.JString? && tool.s in QueryTools
  }

  /** What httpx's `QueryParams` raises on one item of a list of
      parameters, which it reads as `item[0]` (the key, which must be
      hashable) and `item[1]`; None when the item is such a pair. */
  function PairError(item: Json): Option<string>
  {
    match item
    case JArray(xs) =>
      if |xs| == 0 then Some("list index out of range")
      else if xs[0].JArray? || xs[0].JObject? then Some("unhashable type: '" + TypeName(xs[0]) + "'")
      else if |xs| == 1 then Some("list index out of range")
      else None
    case JString(s) => if |s| < 2 then Some("string index out of range") else None
    case JObject(_) => Some("0")
    case _ => Some("'" + TypeName(item) + "' object is not subscriptable")
  }

  /** The index of the first item of a parameter list that is not a pair,
      or the length of the list when every item is one. */
  function FirstNonPair(items: seq<Json>): (i: nat)
    ensures i <= |items|
    ensures forall k :: 0 <= k < i ==> PairError(items[k]).None?
    ensures i < |items| ==> PairError(items[i]).Some?
  {
    if items == [] || PairError(items[0]).Some? then 0
    else 1 + FirstNonPair(items[1..])
  }

  /** The error httpx raises while it builds the query string of a GET,
      before any connection is made; None when the arguments encode. `None`
      sends no parameters, a string is parsed as a query string, a dict
      gives one parameter per key and a list one per pair; any other value
      has no `items` to read. */
  function QueryError(args: Json): Option<string>
  {
    match args
    case JNull => None
    case JString(_) => None
    case JObject(_) => None
    case JArray(items) =>
      var i := FirstNonPair(items);
      if i < |items| then PairError(items[i]) else None
    case _ => Some("'" + TypeName(args) + "' object has no attribute 'items'")
  }

  /** A GET with the arguments as query parameters, or the error httpx
      raises for them. */
  function QueryRoute(url: string, args: Json): Routing
  {
    match QueryError(args)
    case Some(e) => Refuse(e)
    case None => Dispatch(Query(url, args))
  }

  /** The routing table of `call_tool`. */
  function Route(baseUrl: string, tool: Json, args: Json, render: Json -> string): (r: Routing)
    ensures r.Dispatch? ==> Catalogued(tool) && StartsWith(r.request.url, baseUrl)
    ensures IsQueryTool(tool) ==> (r.Dispatch? <==> QueryError(args).None?)
    ensures IsQueryTool(tool) && QueryError(args).Some? ==> r == Refuse(QueryError(args).value)
    ensures r.Dispatch? && r.request.verb == Get ==> r.request == Query(r.request.url, args)
    ensures r.Dispatch? && r.request.verb == Post ==> r.request == Submit(r.request.url, args)
    ensures !Catalogued(tool) ==> r == Refuse("Unknown tool: " + PyStr(tool, render))
  {
    if tool == JString("search_news") then QueryRoute(baseUrl + "/news/search", args)
    else if tool == JString("get_top_headlines") then QueryRoute(baseUrl + "/news/headlines", args)
    else if tool == JString("search_web") then QueryRoute(baseUrl + "/web/search", args)
    else if tool == JString("parse_rss_feed") then QueryRoute(baseUrl + "/rss/parse", args)
    else if tool == JString("add_event") then Dispatch(Submit(baseUrl + "/events", args))
    else if tool == JString("get_events") then QueryRoute(baseUrl + "/events", args)
    else if tool == JString("delete_event") then
      if !args.JObject? then Refuse("'" + TypeName(args) + "' object has no attribute 'get'")
      else
        var id := FieldOr(args.fields, "event_id", JNull);
        if !Truthy(id) then Refuse("event_id is required")
        else Dispatch(Request(Delete, baseUrl + "/events/" + PyStr(id, render), None, None))
    else if tool == JString("update_config") then Dispatch(Submit(baseUrl + "/config", args))
    else Refuse("Unknown tool: " + PyStr(tool, render))
  }

  /** Every advertised tool is routed: the query tools exactly when httpx
      can encode the arguments, the two that POST always, and
      `delete_event` only with a truthy `event_id`; so the tools the client
      advertises are the ones it can call. */
  lemma CatalogIsRouted(baseUrl: string, args: Json, render: Json -> string)
    ensures forall i :: 0 <= i < |Catalog()| && Catalog()[i].name != "delete_event" ==>
      (Route(baseUrl, JString(Catalog()[i].name), args, render).Dispatch? <==>
       (Catalog()[i].name in QueryTools ==> QueryError(args).None?))
    ensures Route(baseUrl, JString("delete_event"), args, render).Dispatch?
       <==> args.JObject? && Truthy(FieldOr(args.fields, "event_id", JNull))
  {
    forall i | 0 <= i < |Catalog()| && Catalog()[i].name != "delete_event"
        ensures Route(baseUrl, JString(Catalog()[i].name), args, render).Dispatch? <==>
        (Catalog()[i].name in QueryTools ==> QueryError(args).None?)
    {
      assert Catalog()[i].name == ToolNames[i];
    }
  }

  /** A number or a boolean given to a query tool is refused with the
      error httpx raises, before any request. */
  lemma ScalarQueryRefused(b: string, tool: Json, args: Json, render: Json -> string)
    requires IsQueryTool(tool) && (args.JInt? || args.JBool? || args.JReal?)
    ensures Route(b, tool, args, render) == Refuse("'" + TypeName(args) + "' object has no attribute 'items'")
  {
  }

  /** A list of parameters whose items are all key/value lists with a
      scalar key is sent as it is. */
  lemma PairListSent(b: string, tool: Json, items: seq<Json>, render: Json -> string)
    requires IsQueryTool(tool)
    requires forall i :: 0 <= i < |items| ==> items[i].JArray? && |items[i].items| == 2 && items[i].items[0].JString?
    ensures Route(b, tool, JArray(items), render).Dispatch?
    ensures Route(b, tool, JArray(items), render).request.params == Some(JArray(items))
  {
  }

  /** A list item that is a one-character string has no `item[1]`. */
  lemma ShortItemRefused(b: string, render: Json -> string)
    ensures Route(b, JString("get_events"), JArray([JString("q")]), render) == Refuse("string index out of range")
  {
    assert "get_events" == QueryTools[4];
    assert FirstNonPair([JString("q")]) == 0;
    assert QueryError(JArray([JString("q")])) == Some("string index out of range");
  }

  /** The endpoints of the query tools: a GET with the arguments as query
      parameters. */
  lemma RouteQueries(b: string, args: map<string, Json>, render: Json -> string)
    ensures Route(b, JString("search_news"), JObject(args), render) == Dispatch(Request(Get, b + "/news/search", Some(JObject(args)), None))
    ensures Route(b, JString("get_top_headlines"), JObject(args), render) == Dispatch(Request(Get, b + "/news/headlines", Some(JObject(args)), None))
    ensures Route(b, JString("search_web"), JObject(args), render) == Dispatch(Request(Get, b + "/web/search", Some(JObject(args)), None))
    ensures Route(b, JString("parse_rss_feed"), JObject(args), render) == Dispatch(Request(Get, b + "/rss/parse", Some(JObject(args)), None))
    ensures Route(b, JString("get_events"), JObject(args), render) == Dispatch(Request(Get, b + "/events", Some(JObject(args)), None))
  {
  }

  /** The endpoints of the two tools that POST the arguments as the body. */
  lemma RouteSubmits(b: string, args: map<string, Json>, render: Json -> string)
    ensures Route(b, JString("add_event"), JObject(args), render) == Dispatch(Request(Post, b + "/events", None, Some(JObject(args))))
    ensures Route(b, JString("update_config"), JObject(args), render) == Dispatch(Request(Post, b + "/config", None, Some(JObject(args))))
  {
  }

  /** `delete_event` puts a textual id in the path, and refuses without one. */
  lemma RouteDelete(b: string, args: map<string, Json>, render: Json -> string)
    ensures "event_id" in args && args["event_id"].JString? && args["event_id"].s != "" ==>
      Route(b, JString("delete_event"), JObject(args), render) == Dispatch(Request(Delete, b + "/events/" + args["event_id"].s, None, None))
    ensures "event_id" !in args ==> Route(b, JString("delete_event"), JObject(args), render) == Refuse("event_id is required")
  {
  }

  /** What `call_tool` returns for a request it made: the response as JSON,
      or `{"error": str(e)}` for a timeout, a failed request, a non-2xx
      status or a body that is not JSON. */
  function ToolResult(o: Outcome, parse: JsonParser): (r: Json)
    ensures !o.Completed? ==> r == ErrorDict(o.message)
    ensures o.Completed? && parse(o.text).Ok? ==> r == parse(o.text).value
    ensures forall e :: o.Completed? && parse(o.text) == Err(e) ==> r == ErrorDict(e.message)
  {
    match o
    case Completed(text) =>
      (match parse(text)
       case Ok(v) => v
       case Err(e) => ErrorDict(e.message))
    case TimedOut(m) => ErrorDict(m)
    case Failed(m) => ErrorDict(m)
  }

  /** What `list_tools` returns: the catalog once the server answers, an
      empty list on any error. */
  function ToolsFrom(o: Outcome): seq<ToolInfo>
  {
    if o.Completed? then Catalog() else []
  }

  class McpClient {
    const baseUrl: string
    var connected: bool
    var availableTools: seq<ToolInfo>

    constructor(baseUrl: string)
      ensures this.baseUrl == baseUrl && !connected && availableTools == []
    {
      this.baseUrl := baseUrl;
      connected := false;
      availableTools := [];
    }

    /** The client the front end creates. */
    constructor Default()
      ensures baseUrl == "http://127.0.0.1:8001" && !connected && availableTools == []
    {
      baseUrl := "http://127.0.0.1:8001";
      connected := false;
      availableTools := [];
    }

    function ResourcesRequest(): Request
    {
      Request(Get, baseUrl + "/resources", None, None)
    }

    method ListTools(http: Transport) returns (tools: seq<ToolInfo>)
      modifies http
      ensures http.sent == old(http.sent) + [ResourcesRequest()]
      ensures http.respond(ResourcesRequest()).Completed? ==> tools == Catalog()
      ensures !http.respond(ResourcesRequest()).Completed? ==> tools == []
      ensures forall i :: 0 <= i < |tools| ==> Catalogued(JString(tools[i].name))
    {
      var o := http.Send(ResourcesRequest());
      tools := ToolsFrom(o);
    }

    /** `connect` ends connected whatever the server does, because
        `list_tools` turns every failure into an empty list. */
    method Connect(http: Transport)
      modifies this, http
      ensures connected
      ensures availableTools == ToolsFrom(http.respond(ResourcesRequest()))
      ensures http.sent == old(http.sent) + [ResourcesRequest()]
    {
      availableTools := ListTools(http);
      connected := true;
    }

    method Disconnect()
      modifies this
      ensures !connected && availableTools == old(availableTools)
    {
      connected := false;
    }

    /** `call_tool`: connects first when needed, then either refuses without
        a request or makes exactly the routed request; it never raises. */
    method CallTool(http: Transport, tool: Json, args: Json, parse: JsonParser, render: Json -> string)
      returns (result: Json)
      modifies this, http
      ensures connected
      ensures availableTools == if old(connected) then old(availableTools) else ToolsFrom(http.respond(ResourcesRequest()))
      ensures var before := old(http.sent) + (if old(connected) then [] else [ResourcesRequest()]);
        match Route(baseUrl, tool, args, render)
        case Refuse(e) => result == ErrorDict(e) && http.sent == before
        case Dispatch(req) => result == ToolResult(http.respond(req), parse) && http.sent == before + [req]
      ensures http.sent == old(http.sent) + CallRequests(this, old(connected), tool, args, render)
    {
      if !connected {
        Connect(http);
      }
      match Route(baseUrl, tool, args, render)
      case Refuse(e) =>
        result := ErrorDict(e);
      case Dispatch(req) =>
        var o := http.Send(req);
        result := ToolResult(o, parse);
    }
  }

  /** The requests one `call_tool` makes: the `/resources` GET of the
      connect when the client was not connected, then the routed request, or
      none when the tool is refused. */
  function CallRequests(client: McpClient, wasConnected: bool, tool: Json, args: Json, render: Json -> string): (reqs: seq<Request>)
    ensures |reqs| <= 2
    ensures Route(client.baseUrl, tool, args, render).Dispatch? ==> reqs != [] && reqs[|reqs| - 1] == Route(client.baseUrl, tool, args, render).request
  {
    (if wasConnected then [] else [client.ResourcesRequest()])
    + match Route(client.baseUrl, tool, args, render)
      case Refuse(_) => []
      case Dispatch(req) => [req]
  }

  /** The requests a dispatch decision makes: those of `call_tool` for a
      tool call, none otherwise. */
  function TurnRequests(client: McpClient, wasConnected: bool, turn: Turn, render: Json -> string): seq<Request>
  {
    match turn
    case UseTool(tool, args) => CallRequests(client, wasConnected, tool, args, render)
    case _ => []
  }

  /** The tool list `call_tool` leaves: unchanged when already connected,
      otherwise what the connect's `list_tools` returned. */
  function ToolsAfterCall(client: McpClient, wasConnected: bool, tools: seq<ToolInfo>, respond: Request -> Outcome): seq<ToolInfo>
  {
    if wasConnected then tools else ToolsFrom(respond(client.ResourcesRequest()))
  }

  // ------------------------------------------------------- main, handle_tool_call

  datatype Role = User | Assistant
  datatype Message = Message(role: Role, content: Json)

  /** What `main` does with a classified reply: fault with the exception
      that escapes, answer with a content, or hand a tool call on. */
  datatype Turn = Faulted(exception: string) | Answer(content: Json) | UseTool(tool: Json, arguments: Json)

  /** Lines 313-320 of `main` as written: the reply's `content` is looked up
      (a tool-call reply has none), an object is extracted from it, and its
      `action`, then `tool` and `arguments` or `content`, are indexed. */
  function MainStep(reply: Reply, parse: JsonParser): (t: Turn)
    ensures reply.ToolCall? ==> t.Faulted?
    ensures t.Answer? ==> exists f :: ExtractJson(reply.content, parse) == Some(JObject(f)) && "content" in f && t.content == f["content"]
    ensures reply.TextReply? && ExtractJson(reply.content, parse).None? ==> t.Faulted?
    ensures forall f :: reply.TextReply? && ExtractJson(reply.content, parse) == Some(JObject(f)) ==>
      ("action" !in f ==> t.Faulted?) &&
      ("action" in f && f["action"] == JString("use_tool") ==>
         (t.Faulted? <==> "tool" !in f || "arguments" !in f) &&
         ("tool" in f && "arguments" in f ==> t == UseTool(f["tool"], f["arguments"]))) &&
      ("action" in f && f["action"] != JString("use_tool") ==> (t.Faulted? <==> "content" !in f))
    ensures t.UseTool? ==> exists f ::
      (ExtractJson(reply.content, parse) == Some(JObject(f)) &&
       "action" in f && f["action"] == JString("use_tool") && "tool" in f && "arguments" in f)
  {
    match reply
    case ToolCall(_, _) => Faulted("KeyError: 'content'")
    case TextReply(content) =>
      match ExtractJson(content, parse)
      case None => Faulted("TypeError: 'NoneType' object is not subscriptable")
      case Some(v) =>
        if !v.JObject? then Faulted("TypeError: subscript of " + TypeName(v))
        else if "action" !in v.fields then Faulted("KeyError: 'action'")
        else if v.fields["action"] == JString("use_tool") then
          if "tool" !in v.fields then Faulted("KeyError: 'tool'")
          else if "arguments" !in v.fields then Faulted("KeyError: 'arguments'")
          else UseTool(v.fields["tool"], v.fields["arguments"])
        else if "content" !in v.fields then Faulted("KeyError: 'content'")
        else Answer(v.fields["content"])
  }

  /** The dispatch `main` evidently intends: a tool-call reply is used as
      one, an object extracted from prose is either a tool request or an
      answer with its `content`, and any other text is shown as it is. */
  function FixedStep(reply: Reply, parse: JsonParser): (t: Turn)
    ensures !t.Faulted?
    ensures reply.ToolCall? ==> t == UseTool(reply.tool, reply.arguments)
    ensures reply.TextReply? && ExtractJson(reply.content, parse).None? ==> t == Answer(JString(reply.content))
  {
    match reply
    case ToolCall(tool, arguments) => UseTool(tool, arguments)
    case TextReply(content) =>
      match ExtractJson(content, parse)
      case Some(JObject(f)) =>
        if Field(f, "action") == Some(JString("use_tool")) then
          UseTool(FieldOr(f, "tool", JNull), FieldOr(f, "arguments", JObject(map[])))
        else if "content" in f then Answer(f["content"])
        else Answer(JString(content))
      case _ => Answer(JString(content))
  }

  /** The corrected dispatch changes nothing where the code as written works. */
  lemma FixedAgreesWhereMainWorks(reply: Reply, parse: JsonParser)
    ensures MainStep(reply, parse).Faulted? || FixedStep(reply, parse) == MainStep(reply, parse)
  {
  }

  lemma NoBraceNoCandidate(text: string)
    requires forall k :: 0 <= k < |text| ==> text[k] != '{'
    ensures JsonCandidate(text).None?
  {
  }

  /** A plain prose reply, the usual answer of a chat model, faults as
      written: with no `{` in it, nothing is extracted and `None["action"]`
      raises. */
  lemma ProseReplyFaults(raw: string, parse: JsonParser, llm: LlmClient)
    requires forall k :: 0 <= k < |Strip(raw)| ==> Strip(raw)[k] != '{'
    requires parse(Strip(raw)).Err? && parse(Strip(raw)).error.DecodeError?
    ensures MainStep(Classify(raw, parse, llm), parse).Faulted?
    ensures FixedStep(Classify(raw, parse, llm), parse) == Answer(JString(Strip(raw)))
  {
    NoBraceNoCandidate(Strip(raw));
  }

  /** Text with no `}` extracts nothing, even when it holds a `{`, so it
      faults as written just as brace-free prose does. */
  lemma UnclosedBraceFaults(text: string, parse: JsonParser)
    requires '}' !in text
    ensures MainStep(TextReply(text), parse).Faulted?
  {
    assert JsonCandidate(text).None?;
  }

  /** For instance "see {here". */
  lemma UnclosedBraceExample(parse: JsonParser)
    ensures MainStep(TextReply("see {here"), parse).Faulted?
  {
    var a, b := "see ", "{here";
    assert '}' !in a && '}' !in b;
    UnclosedBraceFaults(a + b, parse);
  }

  /** For instance "Hello!", which `json.loads` refuses. */
  lemma HelloFaults(parse: JsonParser, llm: LlmClient)
    requires parse("Hello!").Err? && parse("Hello!").error.DecodeError?
    ensures MainStep(Classify("Hello!", parse, llm), parse).Faulted?
  {
    HelloIsProse();
    ProseReplyFaults("Hello!", parse, llm);
  }

  /** A reply that `json.loads` refuses with an exception other than a
      JSONDecodeError, such as a list holding an integer of 5000 digits
      next to a tool request, is replaced by the failure text. With no `{`
      in the error or the settings, that text extracts nothing: the turn
      faults as written and the corrected dispatch shows the failure text.
      The embedded tool request is never run. */
  lemma TroubleReplyFaults(raw: string, parse: JsonParser, llm: LlmClient)
    requires parse(Strip(raw)).Err? && parse(Strip(raw)).error.OtherError?
    requires '{' !in parse(Strip(raw)).error.message && '{' !in llm.baseUrl && '{' !in llm.model
    ensures MainStep(Classify(raw, parse, llm), parse).Faulted?
    ensures FixedStep(Classify(raw, parse, llm), parse) ==
      Answer(JString(TroubleText(llm, parse(Strip(raw)).error.message)))
  {
    var t := TroubleText(llm, parse(Strip(raw)).error.message);
    NoBraceNoCandidate(t);
  }

  /** "Hello!" has no padding and no brace; kept apart from the lemma above,
      whose goal would otherwise unfold `Classify` against it. */
  lemma HelloIsProse()
    ensures Strip("Hello!") == "Hello!"
    ensures forall k :: 0 <= k < |Strip("Hello!")| ==> Strip("Hello!")[k] != '{'
  {
    StripUnpadded("Hello!");
  }

  /** A reply that is nothing but a tool call is classified as one, and
      then faults as written, since a tool-call result has no `content`. */
  lemma BareToolCallFaults(raw: string, parse: JsonParser, llm: LlmClient)
    requires parse(Strip(raw)).Ok? && IsToolRequest(parse(Strip(raw)).value)
    ensures MainStep(Classify(raw, parse, llm), parse).Faulted?
    ensures var f := parse(Strip(raw)).value.fields;
      FixedStep(Classify(raw, parse, llm), parse) == UseTool(FieldOr(f, "tool", JNull), FieldOr(f, "arguments", JObject(map[])))
  {
  }

  /** Under the corrected dispatch, a reply that is nothing but a tool call
      for a routed tool makes that tool's request, last among the requests
      of its turn. */
  lemma CorrectedToolCallSent(client: McpClient, wasConnected: bool, raw: string, parse: JsonParser, llm: LlmClient, render: Json -> string)
    requires parse(Strip(raw)).Ok? && IsToolRequest(parse(Strip(raw)).value)
    requires var f := parse(Strip(raw)).value.fields;
      Route(client.baseUrl, FieldOr(f, "tool", JNull), FieldOr(f, "arguments", JObject(map[])), render).Dispatch?
    ensures var f := parse(Strip(raw)).value.fields;
      var reqs := TurnRequests(client, wasConnected, FixedStep(Classify(raw, parse, llm), parse), render);
      reqs != [] && reqs[|reqs| - 1] == Route(client.baseUrl, FieldOr(f, "tool", JNull), FieldOr(f, "arguments", JObject(map[])), render).request
  {
    BareToolCallFaults(raw, parse, llm);
    var f := parse(Strip(raw)).value.fields;
    ToolTurnSends(client, wasConnected, FixedStep(Classify(raw, parse, llm), parse), FieldOr(f, "tool", JNull), FieldOr(f, "arguments", JObject(map[])), render);
  }

  /** A tool-call turn for a routed tool ends with that tool's request. */
  lemma ToolTurnSends(client: McpClient, wasConnected: bool, turn: Turn, tool: Json, args: Json, render: Json -> string)
    requires turn == UseTool(tool, args) && Route(client.baseUrl, tool, args, render).Dispatch?
    ensures var reqs := TurnRequests(client, wasConnected, turn, render);
      reqs != [] && reqs[|reqs| - 1] == Route(client.baseUrl, tool, args, render).request
  {
  }

  /** `handle_tool_call` raises before its summary for the two tools whose
      display reads `arguments.get(..)` outside the display's own handler. */
  predicate DisplayFaults(tool: Json, args: Json)
  {
    (tool == JString("search_web") || tool == JString("parse_rss_feed")) && !args.JObject?
  }

  function Summary(tool: Json, args: Json, render: Json -> string): Message
  {
    Message(Assistant, JString("I used " + PyStr(tool, render) + " with arguments " + PyStr(args, render) + " and got results."))
  }

  /** The messages a dispatch decision appends after the user's: none for
      a fault, the answer, or the tool summary unless its display faults. */
  function Reaction(turn: Turn, render: Json -> string): (added: seq<Message>)
    ensures |added| <= 1
    ensures turn.Faulted? ==> added == []
    ensures added != [] ==> added[0].role == Assistant
  {
    match turn
    case Faulted(_) => []
    case Answer(content) => [Message(Assistant, content)]
    case UseTool(tool, args) => if DisplayFaults(tool, args) then [] else [Summary(tool, args, render)]
  }

  /** The message list of one chat session. */
  class Conversation {
    var messages: seq<Message>

    constructor()
      ensures messages == []
    {
      messages := [];
    }

    /** `handle_tool_call`: calls the tool, then appends exactly one summary,
        even when the result is an error dictionary, unless an exception
        escapes before it. */
    method HandleToolCall(client: McpClient, http: Transport, tool: Json, args: Json,
                          parse: JsonParser, render: Json -> string) returns (summarised: bool)
      modifies this, client, http
      ensures client.connected
      ensures client.availableTools == ToolsAfterCall(client, old(client.connected), old(client.availableTools), http.respond)
      ensures http.sent == old(http.sent) + CallRequests(client, old(client.connected), tool, args, render)
      ensures summarised == !DisplayFaults(tool, args)
      ensures messages == old(messages) + (if summarised then [Summary(tool, args, render)] else [])
    {
      var result := client.CallTool(http, tool, args, parse, render);
      summarised := !DisplayFaults(tool, args);
      if summarised {
        messages := messages + [Summary(tool, args, render)];
      }
    }

    /** Carries out one dispatch decision on the session: a tool call goes
        through `call_tool`; nothing else touches the client or the network. */
    method Perform(client: McpClient, http: Transport, turn: Turn, parse: JsonParser, render: Json -> string)
      modifies this, client, http
      ensures messages == old(messages) + Reaction(turn, render)
      ensures http.sent == old(http.sent) + TurnRequests(client, old(client.connected), turn, render)
      ensures turn.UseTool? ==> client.connected
      ensures turn.UseTool? ==>
        client.availableTools == ToolsAfterCall(client, old(client.connected), old(client.availableTools), http.respond)
      ensures !turn.UseTool? ==> unchanged(client)
    {
      match turn
      case Faulted(_) =>
      case Answer(content) =>
        messages := messages + [Message(Assistant, content)];
      case UseTool(tool, arguments) =>
        var _ := HandleToolCall(client, http, tool, arguments, parse, render);
    }

    /** `main` as written: the user's message is appended first and stays
        even when the handler then faults. */
    method HandleMessage(client: McpClient, http: Transport, llm: LlmClient, userText: string, llmReply: string,
                         parse: JsonParser, render: Json -> string) returns (turn: Turn)
      modifies this, client, http
      ensures turn == MainStep(Classify(llmReply, parse, llm), parse)
      ensures messages == old(messages) + [Message(User, JString(userText))] + Reaction(turn, render)
      ensures http.sent == old(http.sent) + TurnRequests(client, old(client.connected), turn, render)
      ensures !turn.UseTool? ==> unchanged(client)
    {
      messages := messages + [Message(User, JString(userText))];
      turn := MainStep(Classify(llmReply, parse, llm), parse);
      Perform(client, http, turn, parse, render);
    }

    /** `main` with the corrected dispatch: no turn faults, so every turn
        adds the user's message and its reaction. */
    method HandleMessageCorrected(client: McpClient, http: Transport, llm: LlmClient, userText: string, llmReply: string,
                                  parse: JsonParser, render: Json -> string) returns (turn: Turn)
      modifies this, client, http
      ensures turn == FixedStep(Classify(llmReply, parse, llm), parse)
      ensures !turn.Faulted?
      ensures messages == old(messages) + [Message(User, JString(userText))] + Reaction(turn, render)
      ensures http.sent == old(http.sent) + TurnRequests(client, old(client.connected), turn, render)
      ensures turn.UseTool? ==> client.connected
      ensures turn.UseTool? ==>
        client.availableTools == ToolsAfterCall(client, old(client.connected), old(client.availableTools), http.respond)
      ensures !turn.UseTool? ==> unchanged(client)
    {
      messages := messages + [Message(User, JString(userText))];
      turn := FixedStep(Classify(llmReply, parse, llm), parse);
      Perform(client, http, turn, parse, render);
    }
  }
}
