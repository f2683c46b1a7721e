/** The configuration defaults and the loading of the configuration and the
    stored events from their JSON files, with each file's state given as an
    input and json.load as a parser parameter. */
module Config {
  import opened Values

  const DefaultFeeds: seq<string> := ["https://feeds.bbci.co.uk/news/rss.xml", "https://rss.cnn.com/rss/edition.rss"]

  /** `get_default_config`: six settings, among them the two BBC and CNN
      feeds, 20 articles, a 30-second timeout and 5 concurrent requests. */
  function DefaultConfig(): (c: map<string, Json>)
    ensures c.Keys == {"default_country", "default_language", "max_articles", "default_rss_feeds", "api_timeout", "max_concurrent_requests"}
    ensures c["default_country"] == JString("us") && c["default_language"] == JString("en")
    ensures c["max_articles"] == JInt(20) && c["max_concurrent_requests"] == JInt(5)
    ensures c["api_timeout"] == JReal(30.0)
    ensures c["default_rss_feeds"] == JArray([JString(DefaultFeeds[0]), JString(DefaultFeeds[1])])
  {
    map[
      "default_country" := JString("us"),
      "default_language" := JString("en"),
      "max_articles" := JInt(20),
      "default_rss_feeds" := JArray([JString(DefaultFeeds[0]), JString(DefaultFeeds[1])]),
      "api_timeout" := JReal(30.0),
      "max_concurrent_requests" := JInt(5)
    ]
  }

  /** What opening a file finds: no file, a file that cannot be read, or its text. */
  datatype FileState = Missing | Unreadable | Present(text: string)

  /** An element of the iterable given to `dict.update`, read as a
      (key, value) pair: a two-element list, or a two-character string. */
  function PairOf(j: Json): (p: Option<(string, Json)>)
    ensures p.Some? ==> (j.JArray? && |j.items| == 2) || (j.JString? && |j.s| == 2)
  {
    match j
    case JArray(items) =>
      if |items| == 2 && items[0].JString? then Some((items[0].s, items[1])) else None
    case JString(s) =>
      if |s| == 2 then Some(([s[0]], JString([s[1]]))) else None
    case _ => None
  }

  /** The pairs of the leading run of pair elements: `dict.update` applies
      these before the first element that is not a pair raises. */
  function LeadingPairs(items: seq<Json>): (ps: seq<(string, Json)>)
    ensures |ps| <= |items|
    ensures forall i :: 0 <= i < |ps| ==> PairOf(items[i]) == Some(ps[i])
    ensures |ps| < |items| ==> PairOf(items[|ps|]).None?
    decreases |items|
  {
    if items == [] then []
    else match PairOf(items[0])
      case None => []
      case Some(p) => [p] + LeadingPairs(items[1..])
  }

  /** Some pair of ps has key k. */
  predicate HasKey(ps: seq<(string, Json)>, k: string)
  {
    exists i :: 0 <= i < |ps| && ps[i].0 == k
  }

  /** No pair of ps after position i has key k. */
  predicate NoLaterKey(ps: seq<(string, Json)>, i: nat, k: string)
  {
    forall j :: i < j < |ps| ==> ps[j].0 != k
  }

  /** r has the keys of config and of the pairs ps, and no others. */
  ghost predicate KeysAfter(config: map<string, Json>, ps: seq<(string, Json)>, r: map<string, Json>)
  {
    forall k :: k in r <==> k in config || HasKey(ps, k)
  }

  /** Each key of ps holds the value of its last pair in r. */
  ghost predicate LastWins(ps: seq<(string, Json)>, r: map<string, Json>)
  {
    forall i :: 0 <= i < |ps| && NoLaterKey(ps, i, ps[i].0) ==> ps[i].0 in r && r[ps[i].0] == ps[i].1
  }

  /** A key of config that no pair of ps sets keeps its value in r. */
  ghost predicate OthersKept(config: map<string, Json>, ps: seq<(string, Json)>, r: map<string, Json>)
  {
    forall k :: k in config && !HasKey(ps, k) ==> k in r && r[k] == config[k]
  }

  /** `dict.update(items)` for a list: the pairs are applied in order, and the
      first element that is not a pair raises, keeping the pairs before it.
      So each key of the leading pairs holds the value of its last pair,
      every other key keeps its value, and no other key appears. */
  function UpdatePairs(config: map<string, Json>, items: seq<Json>): (r: map<string, Json>)
    ensures config.Keys <= r.Keys
    ensures (forall i :: 0 <= i < |items| ==> PairOf(items[i]).None?) ==> r == config
    ensures items != [] && PairOf(items[0]).None? ==> r == config
    ensures KeysAfter(config, LeadingPairs(items), r)
    ensures LastWins(LeadingPairs(items), r)
    ensures OthersKept(config, LeadingPairs(items), r)
    decreases |items|
  {
    if items == [] then config
    else match PairOf(items[0])
      case None => config
      case Some((k, v)) =>
        var r := UpdatePairs(config[k := v], items[1..]);
        var rest := LeadingPairs(items[1..]);
        assert LeadingPairs(items) == [(k, v)] + rest;
        StepKeys(config, k, v, rest, r);
        StepLast(config, k, v, rest, r);
        StepKept(config, k, v, rest, r);
        r
  }

  /** The keys after one more pair in front. */
  lemma StepKeys(config: map<string, Json>, k: string, v: Json, rest: seq<(string, Json)>, r: map<string, Json>)
    requires KeysAfter(config[k := v], rest, r)
    ensures KeysAfter(config, [(k, v)] + rest, r)
  {
    var ps := [(k, v)] + rest;
    forall key ensures key in r <==> key in config || HasKey(ps, key) {
      if key == k {
        assert ps[0].0 == key;
      } else if HasKey(rest, key) {
        var i :| 0 <= i < |rest| && rest[i].0 == key;
        assert ps[i + 1].0 == key;
      }
    }
  }

  /** The last pair of each key still wins with one more pair in front: the
      front pair wins only if no later pair has its key. */
  lemma StepLast(config: map<string, Json>, k: string, v: Json, rest: seq<(string, Json)>, r: map<string, Json>)
    requires LastWins(rest, r) && OthersKept(config[k := v], rest, r)
    ensures LastWins([(k, v)] + rest, r)
  {
    var ps := [(k, v)] + rest;
    forall i | 0 <= i < |ps| && NoLaterKey(ps, i, ps[i].0)
      ensures ps[i].0 in r && r[ps[i].0] == ps[i].1
    {
      if i == 0 {
        FrontWins(config, k, v, rest, r);
      } else {
        LaterWins(k, v, rest, r, i);
      }
    }
  }

  lemma FrontWins(config: map<string, Json>, k: string, v: Json, rest: seq<(string, Json)>, r: map<string, Json>)
    requires OthersKept(config[k := v], rest, r)
    requires NoLaterKey([(k, v)] + rest, 0, k)
    ensures k in r && r[k] == v
  {
    var ps := [(k, v)] + rest;
    assert !HasKey(rest, k) by {
      forall j | 0 <= j < |rest| ensures rest[j].0 != k {
        assert ps[j + 1] == rest[j];
      }
    }
  }

  lemma LaterWins(k: string, v: Json, rest: seq<(string, Json)>, r: map<string, Json>, i: nat)
    requires LastWins(rest, r)
    requires 0 < i <= |rest| && NoLaterKey([(k, v)] + rest, i, rest[i - 1].0)
    ensures rest[i - 1].0 in r && r[rest[i - 1].0] == rest[i - 1].1
  {
    var ps := [(k, v)] + rest;
    assert NoLaterKey(rest, i - 1, rest[i - 1].0) by {
      forall j | i - 1 < j < |rest| ensures rest[j].0 != rest[i - 1].0 {
        assert ps[j + 1] == rest[j];
      }
    }
  }

  /** A key no pair sets, the front one included, keeps its value. */
  lemma StepKept(config: map<string, Json>, k: string, v: Json, rest: seq<(string, Json)>, r: map<string, Json>)
    requires OthersKept(config[k := v], rest, r)
    ensures OthersKept(config, [(k, v)] + rest, r)
  {
    var ps := [(k, v)] + rest;
    forall key | key in config && !HasKey(ps, key)
      ensures key in r && r[key] == config[key]
    {
      assert ps[0].0 == k;
      assert !HasKey(rest, key) by {
        forall j | 0 <= j < |rest| ensures rest[j].0 != key {
          assert ps[j + 1] == rest[j];
        }
      }
    }
  }

  /** `load_config`: the defaults, overridden by the keys of the file's
      object; the defaults alone when there is no file or it cannot be read or
      parsed. Creating the file when it is missing does not change the result. */
  function LoadConfig(file: FileState, parse: JsonParser): (c: map<string, Json>)
    ensures DefaultConfig().Keys <= c.Keys
    ensures !file.Present? ==> c == DefaultConfig()
    ensures file.Present? && parse(file.text).Err? ==> c == DefaultConfig()
    ensures file.Present? && parse(file.text).Ok? && parse(file.text).value.JObject? ==>
      var f := parse(file.text).value.fields;
      && c.Keys == DefaultConfig().Keys + f.Keys
      && (forall k :: k in f ==> c[k] == f[k])
      && (forall k :: k in DefaultConfig() && k !in f ==> c[k] == DefaultConfig()[k])
    ensures file.Present? && parse(file.text).Ok? && parse(file.text).value.JArray? ==>
      var ps := LeadingPairs(parse(file.text).value.items);
      KeysAfter(DefaultConfig(), ps, c) && LastWins(ps, c) && OthersKept(DefaultConfig(), ps, c)
    ensures file.Present? && parse(file.text).Ok? && !parse(file.text).value.JObject? && !parse(file.text).value.JArray? ==>
      c == DefaultConfig()
  {
    match file
    case Missing => DefaultConfig()
    case Unreadable => DefaultConfig()
    case Present(text) =>
      match parse(text)
      case Err(_) => DefaultConfig()
      case Ok(loaded) =>
        match loaded
        case JObject(f) => DefaultConfig() + f
        case JArray(items) => UpdatePairs(DefaultConfig(), items)
        // A string yields one-character elements, none of them a pair; any
        // other value is not iterable.
        case _ => DefaultConfig()
  }

  /** `len()` succeeds on what json.load returns. */
  predicate Sized(j: Json)
  {
    j.JArray? || j.JObject? || j.JString?
  }

  /** `load_events`: the parsed file content when there is one whose length
      can be taken; `[]` when the file is missing, unreadable or unparsable,
      or holds a JSON scalar (its `len()` raises inside the handler). */
  function LoadEvents(file: FileState, parse: JsonParser): (events: Json)
    ensures Sized(events)
    ensures events != JArray([]) ==> file.Present? && parse(file.text) == Ok(events)
    ensures file.Present? && parse(file.text).Ok? && Sized(parse(file.text).value) ==> events == parse(file.text).value
  {
    match file
    case Present(text) =>
      (match parse(text)
       case Ok(j) => if Sized(j) then j else JArray([])
       case Err(_) => JArray([]))
    case _ => JArray([])
  }
}
