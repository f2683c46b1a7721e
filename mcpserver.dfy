/** The older REST back end: the same event list and configuration, with its
    own checks on a new event and on a configuration update, and the feed
    routes, which fetch without the URL gate and report each feed's failure
    as the text of the HTTP error. */
module McpServer {
  import opened Values
  import opened Text
  import opened DateTime
  import opened Http
  import opened Utils
  import opened Models
  import opened EventStore
  import opened Config

  /** The checks `add_event` makes itself: a date `strptime` reads, and a
      time that, when not empty, reads as `%H:%M`. A blank time is not empty,
      so it is refused. */
  function EventCheck(date: string, time: string): (r: Option<HttpError>)
    ensures r.None? <==> ParseDate(date).Some? && (time == "" || ParseTime(time).Some?)
    ensures r.Some? ==> r.value.status == 400
    ensures ParseDate(date).None? ==> r == Some(HttpError(400, DateMessage))
    ensures ParseDate(date).Some? && time != "" && ParseTime(time).None? ==> r == Some(HttpError(400, TimeMessage))
  {
    if ParseDate(date).None? then Some(HttpError(400, DateMessage))
    else if time != "" && ParseTime(time).None? then Some(HttpError(400, TimeMessage))
    else None
  }

  /** A time of spaces passes the request model's validator but not this
      server's check. */
  lemma BlankTimeHandledDifferently(date: string, n: nat)
    requires ParseDate(date).Some? && n > 0
    ensures ValidateTime(seq(n, _ => ' ')).Ok?
    ensures EventCheck(date, seq(n, _ => ' ')) == Some(HttpError(400, TimeMessage))
  {
    var v := seq(n, _ => ' ');
    BlankTimeAccepted(n);
    assert v[0] == ' ';
    assert IndexOf(v, ':').None?;
  }

  const LegacySettings: seq<string> := ["default_country", "default_language", "max_articles", "api_timeout"]

  /** The allow-list and conversion of `update_config`: four settings (not
      max_concurrent_requests), an integer for max_articles, a float for
      api_timeout, the text otherwise. */
  function CoerceSetting(setting: string, value: string, parseFloat: string -> Option<real>): (r: Result<Json, HttpError>)
    ensures setting !in LegacySettings ==> r == Err(HttpError(400, "Invalid setting: " + setting))
    ensures setting == "max_articles" ==>
      (r.Ok? <==> PyInt(value).Some?) && (r.Ok? ==> r.value == JInt(PyInt(value).value))
    ensures setting == "api_timeout" ==>
      (r.Ok? <==> parseFloat(value).Some?) && (r.Ok? ==> r.value == JReal(parseFloat(value).value))
    ensures (setting == "default_country" || setting == "default_language") ==> r == Ok(JString(value))
    ensures r.Err? ==> r.error.status == 400
  {
    if setting !in LegacySettings then Err(HttpError(400, "Invalid setting: " + setting))
    else if setting == "max_articles" then
      match PyInt(value)
      case None => Err(HttpError(400, "Invalid value for " + setting + ": must be numeric"))
      case Some(n) => Ok(JInt(n))
    else if setting == "api_timeout" then
      match parseFloat(value)
      case None => Err(HttpError(400, "Invalid value for " + setting + ": must be numeric"))
      case Some(x) => Ok(JReal(x))
    else Ok(JString(value))
  }

  lemma ConcurrencyNotSettable(value: string, parseFloat: string -> Option<real>)
    ensures CoerceSetting("max_concurrent_requests", value, parseFloat).Err?
  {
    assert "max_concurrent_requests"[4] != "max_articles"[4];
    assert "max_concurrent_requests" != "api_timeout";
  }

  /** `str()` of an HTTPException: its status and its detail. */
  function ErrorText(e: HttpError): string
  {
    Decimal(e.status) + ": " + e.detail
  }

  /** What `parse_rss_feed` answers to the transport's outcome. */
  ghost predicate ParsedAs(r: Result<FeedData, HttpError>, o: Outcome, feedparse: FeedParser, maxEntries: int)
  {
    match o
    case Completed(text) => r.Ok? && Summarises(r.value, feedparse(text), maxEntries)
    case TimedOut(_) => r == Err(HttpError(504, "RSS feed request timed out"))
    case Failed(m) => r == Err(HttpError(500, "RSS parsing failed: " + m))
  }

  /** What `get_rss_feeds` records for one element of the feed list: the
      element as given, with the data or the text of the error. */
  datatype ListedFeed = ListedFeed(url: Json, outcome: Result<FeedData, string>)

  /** `str(e)` of the TypeError httpx raises, before any request, for a URL
      that is not a string. */
  type UrlTypeError = Json -> string

  /** The result `get_rss_feeds` records for one element: for a string, the
      data of its fetch or the text of the HTTPException; for any other
      value, the text of the 500 that `parse_rss_feed` makes of httpx's
      TypeError. */
  ghost predicate ListedAs(item: ListedFeed, element: Json, respond: Request -> Outcome, feedparse: FeedParser, badUrl: UrlTypeError)
  {
    && item.url == element
    && match element
       case JString(url) =>
         (match respond(FetchRequest(url))
          case Completed(text) => item.outcome.Ok? && Summarises(item.outcome.value, feedparse(text), FeedEntryLimit)
          case TimedOut(_) => item.outcome == Err(ErrorText(HttpError(504, "RSS feed request timed out")))
          case Failed(m) => item.outcome == Err(ErrorText(HttpError(500, "RSS parsing failed: " + m))))
       case _ => item.outcome == Err(ErrorText(HttpError(500, "RSS parsing failed: " + badUrl(element))))
  }

  const FeedEntryLimit := 5

  /** The two texts `get_rss_feeds` can record for a failed feed. */
  lemma FailureTexts(detail: string)
    ensures ErrorText(HttpError(504, detail)) == "504: " + detail
    ensures ErrorText(HttpError(500, detail)) == "500: " + detail
  {
    assert Decimal(504) == "504" && Decimal(500) == "500";
    assert "504" + ": " == "504: ";
    assert "500" + ": " == "500: ";
  }

  /** `parse_rss_feed`: one GET, with no URL check. */
  method ParseRssFeed(http: Transport, url: string, maxEntries: int, feedparse: FeedParser)
    returns (r: Result<FeedData, HttpError>)
    modifies http
    ensures http.sent == old(http.sent) + [FetchRequest(url)]
    ensures ParsedAs(r, http.respond(FetchRequest(url)), feedparse, maxEntries)
  {
    var o := http.Send(FetchRequest(url));
    match o {
      case Completed(text) =>
        var data := Summarise(feedparse(text), maxEntries);
        r := Ok(data);
      case TimedOut(_) =>
        r := Err(HttpError(504, "RSS feed request timed out"));
      case Failed(m) =>
        r := Err(HttpError(500, "RSS parsing failed: " + m));
    }
  }

  /** The request `parse_rss_feed` makes for one element: a GET of a
      string, none for any other value. */
  function ElementRequests(element: Json): seq<Request>
  {
    if element.JString? then [FetchRequest(element.s)] else []
  }

  /** The requests `get_rss_feeds` makes: one GET per string element, in
      order. */
  function FeedRequests(items: seq<Json>): (reqs: seq<Request>)
    ensures |reqs| <= |items|
  {
    if items == [] then [] else FeedRequests(items[..|items| - 1]) + ElementRequests(items[|items| - 1])
  }

  /** A list of strings makes one GET of each, in order. */
  lemma {:induction false} AllStringsFetched(items: seq<Json>)
    requires forall i :: 0 <= i < |items| ==> items[i].JString?
    ensures |FeedRequests(items)| == |items|
    ensures forall i :: 0 <= i < |items| ==> FeedRequests(items)[i] == FetchRequest(items[i].s)
  {
    if items != [] {
      var init := items[..|items| - 1];
      AllStringsFetched(init);
      assert forall i :: 0 <= i < |init| ==> init[i] == items[i];
    }
  }

  /** A list holding no string makes no request. */
  lemma {:induction false} NoStringsNothingSent(items: seq<Json>)
    requires forall i :: 0 <= i < |items| ==> !items[i].JString?
    ensures FeedRequests(items) == []
  {
    if items != [] {
      var init := items[..|items| - 1];
      NoStringsNothingSent(init);
    }
  }

  /** One more element adds its own requests. */
  lemma FeedRequestsStep(items: seq<Json>, i: nat)
    requires i < |items|
    ensures FeedRequests(items[..i + 1]) == FeedRequests(items[..i]) + ElementRequests(items[i])
  {
    assert items[..i + 1][..i] == items[..i];
  }

  ghost predicate AllListed(results: seq<ListedFeed>, items: seq<Json>, respond: Request -> Outcome, feedparse: FeedParser, badUrl: UrlTypeError)
    requires |results| <= |items|
  {
    forall k :: 0 <= k < |results| ==> ListedAs(results[k], items[k], respond, feedparse, badUrl)
  }

  lemma AllListedStep(results: seq<ListedFeed>, items: seq<Json>, item: ListedFeed,
                      respond: Request -> Outcome, feedparse: FeedParser, badUrl: UrlTypeError)
    requires |results| < |items|
    requires AllListed(results, items, respond, feedparse, badUrl)
    requires ListedAs(item, items[|results|], respond, feedparse, badUrl)
    ensures AllListed(results + [item], items, respond, feedparse, badUrl)
  {
    var rs := results + [item];
    forall k | 0 <= k < |rs|
      ensures ListedAs(rs[k], items[k], respond, feedparse, badUrl)
    {
      if k < |results| {
        assert rs[k] == results[k];
      } else {
        assert rs[k] == item && k == |results|;
      }
    }
  }

  /** What the loop of `get_rss_feeds` walks: the elements of the configured
      list, or the one-character strings of a configured string. None when
      the lookup or the iteration itself raises, outside the per-feed
      handler: a missing key, or a value that is not iterable. */
  function FeedUrls(config: map<string, Json>): (r: Option<seq<Json>>)
    ensures "default_rss_feeds" !in config ==> r.None?
    ensures "default_rss_feeds" in config && config["default_rss_feeds"].JArray? ==>
      r == Some(config["default_rss_feeds"].items)
    ensures "default_rss_feeds" in config && config["default_rss_feeds"].JString? ==>
      var s := config["default_rss_feeds"].s;
      r.Some? && |r.value| == |s| && forall i :: 0 <= i < |s| ==> r.value[i] == JString([s[i]])
    ensures "default_rss_feeds" in config && !config["default_rss_feeds"].JArray? && !config["default_rss_feeds"].JString? ==>
      r.None?
  {
    if "default_rss_feeds" !in config then None
    else match config["default_rss_feeds"]
      case JArray(items) => Some(items)
      case JString(s) => Some(seq(|s|, i requires 0 <= i < |s| => JString([s[i]])))
      case _ => None
  }

  /** Without a configuration file the server walks the two default feeds. */
  lemma DefaultFeedUrls(file: FileState, parse: JsonParser)
    requires !file.Present?
    ensures FeedUrls(LoadConfig(file, parse)) == Some([JString(DefaultFeeds[0]), JString(DefaultFeeds[1])])
  {
    assert LoadConfig(file, parse) == DefaultConfig();
  }

  class LegacyServer {
    var events: seq<Event>
    var config: map<string, Json>

    /** The state loaded at start-up: the configuration read from its file,
        and the stored events. */
    constructor(configFile: FileState, parse: JsonParser, events: seq<Event>)
      ensures this.config == LoadConfig(configFile, parse) && this.events == events
    {
      this.config := LoadConfig(configFile, parse);
      this.events := events;
    }

    /** `get_events`, as in the current server. */
    method GetEvents(date: Option<string>, daysAhead: int, today: Date) returns (r: Result<seq<Event>, HttpError>)
      requires ValidDate(today)
      ensures r == EventsAnswer(events, date, daysAhead, today)
    {
      r := QueryEvents(events, date, daysAhead, today);
    }

    /** `add_event`: a refused date or time is 400 and stores nothing;
        otherwise one event is appended with the next id. */
    method AddEvent(title: string, date: string, description: string, time: string, location: string,
                    timestamp: int, now: string)
      returns (r: Result<Event, HttpError>)
      modifies this
      ensures EventCheck(date, time).Some? ==> r == Err(EventCheck(date, time).value) && events == old(events)
      ensures EventCheck(date, time).None? ==>
        && r == Ok(Event(NewEventId(|old(events)|, timestamp), title, description, date, Some(time), location, now))
        && events == old(events) + [r.value]
      ensures config == old(config)
    {
      var refusal := EventCheck(date, time);
      if refusal.Some? {
        return Err(refusal.value);
      }
      var added := Event(NewEventId(|events|, timestamp), title, description, date, Some(time), location, now);
      events := events + [added];
      r := Ok(added);
    }

    /** `delete_event`, as in the current server. */
    method DeleteEvent(id: string) returns (r: Result<Event, HttpError>)
      modifies this
      ensures match FirstWithId(old(events), id)
        case None => r == Err(HttpError(404, "Event not found")) && events == old(events)
        case Some(i) => r == Ok(old(events)[i]) && events == old(events)[..i] + old(events)[i + 1..]
      ensures config == old(config)
    {
      var found := FindEvent(events, id);
      match found {
        case None =>
          r := Err(HttpError(404, "Event not found"));
        case Some(i) =>
          var deleted := events[i];
          events := events[..i] + events[i + 1..];
          r := Ok(deleted);
      }
    }

    /** `update_config`: a refused setting or value is 400 and changes
        nothing; otherwise only that key changes, and the old and new values
        are reported. */
    method UpdateConfig(setting: string, value: string, parseFloat: string -> Option<real>)
      returns (r: Result<(string, Json, Json), HttpError>)
      modifies this
      ensures match CoerceSetting(setting, value, parseFloat)
        case Err(e) => r == Err(e) && config == old(config)
        case Ok(v) =>
          && r == Ok((setting, FieldOr(old(config), setting, JNull), v))
          && config == old(config)[setting := v]
      ensures events == old(events)
    {
      match CoerceSetting(setting, value, parseFloat) {
        case Err(e) =>
          r := Err(e);
        case Ok(v) =>
          var oldValue := if setting in config then config[setting] else JNull;
          config := config[setting := v];
          r := Ok((setting, oldValue, v));
      }
    }

    /** `get_rss_feeds` over the configured feed list: one result per
        element, in order, each with the data or the error's text, and one
        GET per string element. None when reading the list raises (the
        framework answers 500), with no request made. */
    method GetRssFeeds(http: Transport, feedparse: FeedParser, badUrl: UrlTypeError) returns (r: Option<seq<ListedFeed>>)
      modifies http
      ensures FeedUrls(config).None? ==> r.None? && http.sent == old(http.sent)
      ensures FeedUrls(config).Some? ==>
        var items := FeedUrls(config).value;
        && r.Some? && |r.value| == |items|
        && AllListed(r.value, items, http.respond, feedparse, badUrl)
        && http.sent == old(http.sent) + FeedRequests(items)
    {
      var feeds := FeedUrls(config);
      if feeds.None? {
        return None;
      }
      var results := ListFeeds(http, feeds.value, feedparse, badUrl);
      r := Some(results);
    }
  }

  /** One round of the loop of `get_rss_feeds`: `parse_rss_feed` on the
      element, its HTTPException caught and recorded as text. */
  method ListFeed(http: Transport, element: Json, feedparse: FeedParser, badUrl: UrlTypeError) returns (item: ListedFeed)
    modifies http
    ensures ListedAs(item, element, http.respond, feedparse, badUrl)
    ensures http.sent == old(http.sent) + ElementRequests(element)
  {
    if element.JString? {
      var res := ParseRssFeed(http, element.s, FeedEntryLimit, feedparse);
      item := if res.Ok? then ListedFeed(element, Ok(res.value)) else ListedFeed(element, Err(ErrorText(res.error)));
    } else {
      item := ListedFeed(element, Err(ErrorText(HttpError(500, "RSS parsing failed: " + badUrl(element)))));
    }
  }

  /** The loop of `get_rss_feeds`: each element fetched in turn, its failure
      caught and recorded as text. */
  method ListFeeds(http: Transport, items: seq<Json>, feedparse: FeedParser, badUrl: UrlTypeError) returns (results: seq<ListedFeed>)
    modifies http
    ensures |results| == |items|
    ensures AllListed(results, items, http.respond, feedparse, badUrl)
    ensures http.sent == old(http.sent) + FeedRequests(items)
  {
    results := [];
    var i := 0;
    while i < |items|
      invariant 0 <= i <= |items|
      invariant |results| == i
      invariant AllListed(results, items, http.respond, feedparse, badUrl)
      invariant http.sent == old(http.sent) + FeedRequests(items[..i])
    {
      var item := ListFeed(http, items[i], feedparse, badUrl);
      AllListedStep(results, items, item, http.respond, feedparse, badUrl);
      FeedRequestsStep(items, i);
      results := results + [item];
      i := i + 1;
    }
    assert items[..i] == items;
  }
}
