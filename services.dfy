/** The service layer behind the REST back end: the NewsAPI and SerpAPI
    queries (API-key check, query parameters, error mapping), the parse of one
    RSS feed for the REST route, and the aggregation of many feeds. */
module Services {
  import opened Values
  import opened Http
  import opened Utils

  // ------------------------------------------------------------ NewsAPI / SerpAPI

  const NewsKeyMissing := "NEWSAPI_KEY environment variable not set"
  const SerpKeyMissing := "SERPAPI_KEY environment variable not set"

  const EverythingUrl := "https://newsapi.org/v2/everything"
  const HeadlinesUrl := "https://newsapi.org/v2/top-headlines"
  const SearchUrl := "https://serpapi.com/search"

  /** `if not api_key`: an unset or empty environment variable. */
  predicate KeyPresent(apiKey: Option<string>)
  {
    apiKey.Some? && apiKey.value != ""
  }

  /** `if category:` / `if location:` on an optional string. */
  predicate Given(s: Option<string>)
  {
    s.Some? && s.value != ""
  }

  /** The query parameters of `search_news`. */
  function EverythingParams(query: string, language: string, sortBy: string, pageSize: int, key: string): (p: map<string, Json>)
    ensures p.Keys == {"q", "language", "sortBy", "pageSize", "apiKey"}
    ensures p["q"] == JString(query) && p["pageSize"] == JInt(pageSize) && p["apiKey"] == JString(key)
  {
    map["q" := JString(query), "language" := JString(language), "sortBy" := JString(sortBy),
        "pageSize" := JInt(pageSize), "apiKey" := JString(key)]
  }

  /** The query parameters of `get_headlines`: "category" only when given. */
  function HeadlinesParams(country: string, category: Option<string>, pageSize: int, key: string): (p: map<string, Json>)
    ensures p.Keys == {"country", "pageSize", "apiKey"} + (if Given(category) then {"category"} else {})
    ensures p["country"] == JString(country) && p["pageSize"] == JInt(pageSize) && p["apiKey"] == JString(key)
    ensures "category" in p <==> Given(category)
    ensures Given(category) ==> p["category"] == JString(category.value)
  {
    var base := map["country" := JString(country), "pageSize" := JInt(pageSize), "apiKey" := JString(key)];
    if Given(category) then base["category" := JString(category.value)] else base
  }

  /** The query parameters of `search_web`: the engine is always Google and
      "location" is present only when given. */
  function SearchParams(query: string, numResults: int, location: Option<string>, key: string): (p: map<string, Json>)
    ensures p.Keys == {"q", "num", "api_key", "engine"} + (if Given(location) then {"location"} else {})
    ensures p["q"] == JString(query) && p["num"] == JInt(numResults) && p["api_key"] == JString(key)
    ensures p["engine"] == JString("google")
    ensures "location" in p <==> Given(location)
    ensures Given(location) ==> p["location"] == JString(location.value)
  {
    var base := map["q" := JString(query), "num" := JInt(numResults), "api_key" := JString(key), "engine" := JString("google")];
    if Given(location) then base["location" := JString(location.value)] else base
  }

  /** How a request's outcome becomes the route's answer: the decoded body,
      504 on a timeout, and 500 carrying the message of any other failure,
      the failure to decode the body included. */
  function ApiResult(service: string, o: Outcome, parse: JsonParser): (r: Result<Json, HttpError>)
    ensures r.Ok? <==> o.Completed? && parse(o.text).Ok?
    ensures r.Ok? ==> r.value == parse(o.text).value
    ensures r.Err? && r.error.status == 504 <==> o.TimedOut?
    ensures r.Err? ==> r.error.status == 504 || r.error.status == 500
    ensures o.TimedOut? ==> r.error.detail == service + " request timed out"
    ensures o.Failed? ==> r.error.detail == service + " request failed: " + o.message
  {
    match o
    case Completed(text) =>
      (match parse(text)
       case Ok(j) => Ok(j)
       case Err(e) => Err(HttpError(500, service + " request failed: " + e.message)))
    case TimedOut(_) => Err(HttpError(504, service + " request timed out"))
    case Failed(m) => Err(HttpError(500, service + " request failed: " + m))
  }

  /** One GET with query parameters, mapped to the route's answer. */
  method Query(http: Transport, service: string, url: string, params: map<string, Json>, parse: JsonParser)
    returns (r: Result<Json, HttpError>)
    modifies http
    ensures http.sent == old(http.sent) + [Request(Get, url, Some(JObject(params)), None)]
    ensures r == ApiResult(service, http.respond(Request(Get, url, Some(JObject(params)), None)), parse)
  {
    var o := http.Send(Request(Get, url, Some(JObject(params)), None));
    r := ApiResult(service, o, parse);
  }

  /** `NewsAPIService.search_news`. */
  method SearchNews(http: Transport, apiKey: Option<string>, query: string, language: string, sortBy: string,
                    pageSize: int, parse: JsonParser)
    returns (r: Result<Json, HttpError>)
    modifies http
    ensures !KeyPresent(apiKey) ==> r == Err(HttpError(500, NewsKeyMissing)) && http.sent == old(http.sent)
    ensures KeyPresent(apiKey) ==>
      var req := Request(Get, EverythingUrl, Some(JObject(EverythingParams(query, language, sortBy, pageSize, apiKey.value))), None);
      http.sent == old(http.sent) + [req] && r == ApiResult("NewsAPI", http.respond(req), parse)
  {
    if !KeyPresent(apiKey) {
      return Err(HttpError(500, NewsKeyMissing));
    }
    var params := map["q" := JString(query), "language" := JString(language), "sortBy" := JString(sortBy),
                      "pageSize" := JInt(pageSize), "apiKey" := JString(apiKey.value)];
    r := Query(http, "NewsAPI", EverythingUrl, params, parse);
  }

  /** `NewsAPIService.get_headlines`. */
  method GetHeadlines(http: Transport, apiKey: Option<string>, country: string, category: Option<string>,
                      pageSize: int, parse: JsonParser)
    returns (r: Result<Json, HttpError>)
    modifies http
    ensures !KeyPresent(apiKey) ==> r == Err(HttpError(500, NewsKeyMissing)) && http.sent == old(http.sent)
    ensures KeyPresent(apiKey) ==>
      var req := Request(Get, HeadlinesUrl, Some(JObject(HeadlinesParams(country, category, pageSize, apiKey.value))), None);
      http.sent == old(http.sent) + [req] && r == ApiResult("NewsAPI", http.respond(req), parse)
  {
    if !KeyPresent(apiKey) {
      return Err(HttpError(500, NewsKeyMissing));
    }
    var params := map["country" := JString(country), "pageSize" := JInt(pageSize), "apiKey" := JString(apiKey.value)];
    if category.Some? && category.value != "" {
      params := params["category" := JString(category.value)];
    }
    r := Query(http, "NewsAPI", HeadlinesUrl, params, parse);
  }

  /** `SerpAPIService.search_web`. */
  method SearchWeb(http: Transport, apiKey: Option<string>, query: string, numResults: int, location: Option<string>,
                   parse: JsonParser)
    returns (r: Result<Json, HttpError>)
    modifies http
    ensures !KeyPresent(apiKey) ==> r == Err(HttpError(500, SerpKeyMissing)) && http.sent == old(http.sent)
    ensures KeyPresent(apiKey) ==>
      var req := Request(Get, SearchUrl, Some(JObject(SearchParams(query, numResults, location, apiKey.value))), None);
      http.sent == old(http.sent) + [req] && r == ApiResult("SerpAPI", http.respond(req), parse)
  {
    if !KeyPresent(apiKey) {
      return Err(HttpError(500, SerpKeyMissing));
    }
    var params := map["q" := JString(query), "num" := JInt(numResults), "api_key" := JString(apiKey.value),
                      "engine" := JString("google")];
    if location.Some? && location.value != "" {
      params := params["location" := JString(location.value)];
    }
    r := Query(http, "SerpAPI", SearchUrl, params, parse);
  }

  // ------------------------------------------------------------ RSSService.parse_single_feed

  /** `RSSService.parse_single_feed`: 400 for an unsafe URL before any
      request; otherwise one GET whose body is summarised, 504 on a timeout
      and 500 on any other failure. */
  method ParseSingleFeed(http: Transport, url: string, maxEntries: int, feedparse: FeedParser)
    returns (r: Result<FeedData, HttpError>)
    modifies http
    ensures !ValidateUrl(url) ==> r == Err(HttpError(400, "Invalid or unsafe URL")) && http.sent == old(http.sent)
    ensures ValidateUrl(url) ==>
      && http.sent == old(http.sent) + [FetchRequest(url)]
      && match http.respond(FetchRequest(url))
         case Completed(text) => r.Ok? && Summarises(r.value, feedparse(text), maxEntries)
         case TimedOut(_) => r == Err(HttpError(504, "RSS feed request timed out"))
         case Failed(m) => r == Err(HttpError(500, "RSS parsing failed: " + m))
  {
    if !ValidateUrl(url) {
      return Err(HttpError(400, "Invalid or unsafe URL"));
    }
    var o := http.Send(FetchRequest(url));
    match o
    case Completed(text) =>
      var data := Summarise(feedparse(text), maxEntries);
      r := Ok(data);
    case TimedOut(_) =>
      r := Err(HttpError(504, "RSS feed request timed out"));
    case Failed(m) =>
      r := Err(HttpError(500, "RSS parsing failed: " + m));
  }

  // ------------------------------------------------------------ RSSService.fetch_feeds_concurrent

  /** What `asyncio.gather(..., return_exceptions=True)` yields per task. */
  datatype TaskOutcome = Returned(result: FeedResult) | Raised(message: string)

  /** One element of "feeds": a task's own result, or `{"error": str(exc)}`
      with no "url" key. */
  datatype FeedItem = Tagged(result: FeedResult) | Untagged(error: string)

  function Processed(o: TaskOutcome): (item: FeedItem)
    ensures o.Returned? <==> item.Tagged?
    ensures o.Returned? ==> item.result == o.result
    ensures o.Raised? ==> item.error == o.message
  {
    match o
    case Returned(res) => Tagged(res)
    case Raised(m) => Untagged(m)
  }

  /** The loop over the gathered results: one item per task, in task order. */
  method ProcessGathered(results: seq<TaskOutcome>) returns (feeds: seq<FeedItem>)
    ensures |feeds| == |results|
    ensures forall i :: 0 <= i < |results| ==> feeds[i] == Processed(results[i])
  {
    feeds := [];
    var i := 0;
    while i < |results|
      invariant 0 <= i <= |results|
      invariant |feeds| == i
      invariant forall k :: 0 <= k < i ==> feeds[k] == Processed(results[k])
    {
      var item: FeedItem;
      match results[i] {
        case Returned(res) =>
          item := Tagged(res);
        case Raised(m) =>
          item := Untagged(m);
      }
      feeds := feeds + [item];
      i := i + 1;
    }
  }

  /** The requests that fetching the given URLs makes: one GET for each URL
      that passes the gate, in order. */
  function FetchRequests(urls: seq<string>): (reqs: seq<Request>)
    ensures |reqs| <= |urls|
  {
    if urls == [] then []
    else
      var last := urls[|urls| - 1];
      FetchRequests(urls[..|urls| - 1]) + FetchRequestsFor(last)
  }

  /** Only URLs that pass the gate are fetched, each with a plain GET. */
  lemma {:induction false} FetchRequestsGated(urls: seq<string>)
    ensures forall q :: q in FetchRequests(urls) ==> q == FetchRequest(q.url) && ValidateUrl(q.url) && q.url in urls
  {
    if urls != [] {
      var init := urls[..|urls| - 1];
      FetchRequestsGated(init);
      forall q | q in FetchRequests(urls)
        ensures q == FetchRequest(q.url) && ValidateUrl(q.url) && q.url in urls
      {
        if q in FetchRequests(init) {
          assert q.url in init;
        } else {
          assert q in FetchRequestsFor(urls[|urls| - 1]);
        }
      }
    }
  }

  /** The number of entries `fetch_feeds_concurrent` asks of each feed. */
  const FeedEntryLimit := 5

  /** The task returned the result `fetch_single_rss_feed` promises for url. */
  ghost predicate TaskFetched(o: TaskOutcome, url: string, respond: Request -> Outcome, feedparse: FeedParser)
  {
    o.Returned? && FetchedAs(o.result, url, respond, feedparse, FeedEntryLimit)
  }

  /** Every gathered task so far returned the result for the URL at its
      position. */
  ghost predicate AllFetched(results: seq<TaskOutcome>, urls: seq<string>, respond: Request -> Outcome, feedparse: FeedParser)
    requires |results| <= |urls|
  {
    forall k :: 0 <= k < |results| ==> TaskFetched(results[k], urls[k], respond, feedparse)
  }

  lemma AllFetchedStep(results: seq<TaskOutcome>, urls: seq<string>, o: TaskOutcome,
                       respond: Request -> Outcome, feedparse: FeedParser)
    requires |results| < |urls|
    requires AllFetched(results, urls, respond, feedparse)
    requires TaskFetched(o, urls[|results|], respond, feedparse)
    ensures AllFetched(results + [o], urls, respond, feedparse)
  {
    var rs := results + [o];
    forall k | 0 <= k < |rs|
      ensures TaskFetched(rs[k], urls[k], respond, feedparse)
    {
      if k < |results| {
        assert rs[k] == results[k];
      } else {
        assert rs[k] == o && k == |results|;
      }
    }
  }

  /** A tagged item holding the result `fetch_single_rss_feed` promises for url. */
  ghost predicate ItemFetched(item: FeedItem, url: string, respond: Request -> Outcome, feedparse: FeedParser)
  {
    item.Tagged? && FetchedAs(item.result, url, respond, feedparse, FeedEntryLimit)
  }

  /** Processing the gathered results keeps each returned result in place. */
  lemma GatheredFetched(results: seq<TaskOutcome>, feeds: seq<FeedItem>, urls: seq<string>,
                        respond: Request -> Outcome, feedparse: FeedParser)
    requires |results| == |urls| == |feeds|
    requires AllFetched(results, urls, respond, feedparse)
    requires forall k :: 0 <= k < |results| ==> feeds[k] == Processed(results[k])
    ensures forall k :: 0 <= k < |feeds| ==> ItemFetched(feeds[k], urls[k], respond, feedparse)
  {
    forall k | 0 <= k < |feeds|
      ensures ItemFetched(feeds[k], urls[k], respond, feedparse)
    {
      assert TaskFetched(results[k], urls[k], respond, feedparse);
    }
  }

  /** One more task's requests extend the log of the ones before it. */
  lemma FetchRequestsStep(urls: seq<string>, i: nat, start: seq<Request>, before: seq<Request>)
    requires i < |urls|
    requires before == start + FetchRequests(urls[..i])
    ensures before + FetchRequestsFor(urls[i]) == start + FetchRequests(urls[..i + 1])
  {
    var prefix := urls[..i + 1];
    assert prefix[..i] == urls[..i] && prefix[i] == urls[i];
    var tail := FetchRequestsFor(urls[i]);
    assert FetchRequests(prefix) == FetchRequests(urls[..i]) + tail;
    AppendAssociates(start, FetchRequests(urls[..i]), tail);
  }

  /** Proved apart, so that the grouping does not meet the request terms
      of the lemma above. */
  lemma AppendAssociates(a: seq<Request>, b: seq<Request>, c: seq<Request>)
    ensures a + b + c == a + (b + c)
  {
  }

  /** The tasks of `fetch_feeds_concurrent`, run one after the other: each
      returns the result for the URL at its position. */
  method GatherFeeds(http: Transport, feedUrls: seq<string>, feedparse: FeedParser)
    returns (results: seq<TaskOutcome>)
    modifies http
    ensures |results| == |feedUrls|
    ensures AllFetched(results, feedUrls, http.respond, feedparse)
    ensures http.sent == old(http.sent) + FetchRequests(feedUrls)
  {
    results := [];
    var i := 0;
    while i < |feedUrls|
      invariant 0 <= i <= |feedUrls|
      invariant |results| == i
      invariant AllFetched(results, feedUrls, http.respond, feedparse)
      invariant http.sent == old(http.sent) + FetchRequests(feedUrls[..i])
    {
      ghost var before := http.sent;
      var r := FetchSingleRssFeed(http, feedUrls[i], FeedEntryLimit, feedparse);
      FetchRequestsStep(feedUrls, i, old(http.sent), before);
      AllFetchedStep(results, feedUrls, Returned(r), http.respond, feedparse);
      results := results + [Returned(r)];
      i := i + 1;
    }
    assert feedUrls[..i] == feedUrls;
  }

  /** `RSSService.fetch_feeds_concurrent`: one result per URL, in the order
      of the URLs, each tagged with its URL, and "total_feeds" equal to their
      number. */
  method FetchFeedsConcurrent(http: Transport, feedUrls: seq<string>, feedparse: FeedParser)
    returns (feeds: seq<FeedItem>, totalFeeds: int)
    modifies http
    ensures |feeds| == |feedUrls| && totalFeeds == |feeds|
    ensures forall i :: 0 <= i < |feeds| ==> ItemFetched(feeds[i], feedUrls[i], http.respond, feedparse)
    ensures http.sent == old(http.sent) + FetchRequests(feedUrls)
  {
    var results := GatherFeeds(http, feedUrls, feedparse);
    feeds := ProcessGathered(results);
    GatheredFetched(results, feeds, feedUrls, http.respond, feedparse);
    totalFeeds := |feeds|;
  }
}
