/** The current REST back end: its module-level event list and configuration
    held by one server object, with the event routes (list, add, delete) and
    the configuration update. Request bodies are validated by the request
    models first; the clock and `float()` are parameters. */
module MainMcp {
  import opened Values
  import opened Text
  import opened DateTime
  import opened Models
  import opened EventStore
  import opened Config

  /** The answer of a configuration update: the setting with its previous
      value (null when it had none) and its new value. */
  datatype ConfigChange = ConfigChange(setting: string, oldValue: Json, newValue: Json)

  /** A float parser such as `float()`: None where it raises ValueError. */
  type FloatParser = string -> Option<real>

  /** The type conversion of `update_config`: an integer for max_articles and
      max_concurrent_requests, a float for api_timeout, the text otherwise. */
  function CoerceSetting(setting: string, value: string, parseFloat: FloatParser): (r: Result<Json, HttpError>)
    ensures (setting == "max_articles" || setting == "max_concurrent_requests") ==>
      (r.Ok? <==> PyInt(value).Some?) && (r.Ok? ==> r.value == JInt(PyInt(value).value))
    ensures setting == "api_timeout" ==>
      (r.Ok? <==> parseFloat(value).Some?) && (r.Ok? ==> r.value == JReal(parseFloat(value).value))
    ensures setting != "max_articles" && setting != "max_concurrent_requests" && setting != "api_timeout" ==>
      r == Ok(JString(value))
    ensures r.Err? ==> r.error.status == 400
  {
    if setting == "max_articles" || setting == "max_concurrent_requests" then
      match PyInt(value)
      case None => Err(HttpError(400, "Invalid value for " + setting + ": must be integer"))
      case Some(n) => Ok(JInt(n))
    else if setting == "api_timeout" then
      match parseFloat(value)
      case None => Err(HttpError(400, "Invalid value for " + setting + ": must be numeric"))
      case Some(x) => Ok(JReal(x))
    else Ok(JString(value))
  }

  /** An integer setting stored as its text round-trips through `str`;
      the text of an integer past the digit limit is answered with 400. */
  lemma IntegerSettingRoundTrip(setting: string, n: int, parseFloat: FloatParser)
    requires setting == "max_articles" || setting == "max_concurrent_requests"
    ensures StrFits(n) ==> CoerceSetting(setting, Decimal(n), parseFloat) == Ok(JInt(n))
    ensures !StrFits(n) ==>
      CoerceSetting(setting, Decimal(n), parseFloat).Err? && CoerceSetting(setting, Decimal(n), parseFloat).error.status == 400
  {
    PyIntOfDecimal(n);
  }

  class RestServer {
    var events: seq<Event>
    var config: map<string, Json>

    /** The state loaded at start-up: the configuration read from its file,
        and the stored events. */
    constructor(configFile: FileState, parse: JsonParser, events: seq<Event>)
      ensures this.config == LoadConfig(configFile, parse) && this.events == events
    {
      this.config := LoadConfig(configFile, parse);
      this.events := events;
    }

    /** `get_events`; the list is not changed. */
    method GetEvents(date: Option<string>, daysAhead: int, today: Date) returns (r: Result<seq<Event>, HttpError>)
      requires ValidDate(today)
      ensures r == EventsAnswer(events, date, daysAhead, today)
    {
      r := QueryEvents(events, date, daysAhead, today);
    }

    /** `add_event` once the body has been validated: one event appended,
        with the next id and the validated fields. */
    method AddEvent(ev: EventCreate, timestamp: int, now: string) returns (added: Event)
      modifies this
      ensures added == Event(NewEventId(|old(events)|, timestamp), ev.title, ev.description, ev.date,
                             Some(ev.time), ev.location, now)
      ensures events == old(events) + [added]
      ensures config == old(config)
    {
      var id := NewEventId(|events|, timestamp);
      added := Event(id, ev.title, ev.description, ev.date, Some(ev.time), ev.location, now);
      events := events + [added];
    }

    /** POST /events: a body the model rejects is answered with its
        validation messages (status 422) and nothing is stored. */
    method AddEventRequest(title: string, date: string, description: Option<string>, time: Option<string>,
                           location: Option<string>, timestamp: int, now: string)
      returns (r: Result<Event, seq<string>>)
      modifies this
      ensures NewEventCreate(title, date, description, time, location).Err? ==>
        r == Err(NewEventCreate(title, date, description, time, location).error) && events == old(events)
      ensures NewEventCreate(title, date, description, time, location).Ok? ==>
        var ev := NewEventCreate(title, date, description, time, location).value;
        && r.Ok?
        && r.value == Event(NewEventId(|old(events)|, timestamp), ev.title, ev.description, ev.date,
                            Some(ev.time), ev.location, now)
        && events == old(events) + [r.value]
      ensures config == old(config)
    {
      match NewEventCreate(title, date, description, time, location) {
        case Err(messages) =>
          r := Err(messages);
        case Ok(ev) =>
          var added := AddEvent(ev, timestamp, now);
          r := Ok(added);
      }
    }

    /** `delete_event`: the first event with the id is popped and returned;
        with none, 404 and the list unchanged. */
    method DeleteEvent(id: string) returns (r: Result<Event, HttpError>)
      modifies this
      ensures match FirstWithId(old(events), id)
        case None => r == Err(HttpError(404, "Event not found")) && events == old(events)
        case Some(i) => r == Ok(old(events)[i]) && events == old(events)[..i] + old(events)[i + 1..]
      ensures config == old(config)
    {
      var found := FindEvent(events, id);
      match found {
        case None =>
          r := Err(HttpError(404, "Event not found"));
        case Some(i) =>
          var deleted := events[i];
          events := events[..i] + events[i + 1..];
          r := Ok(deleted);
      }
    }

    /** `update_config` once the body has been validated: the converted value
        replaces that one key; a failed conversion is 400 and changes nothing. */
    method UpdateConfig(update: ConfigUpdate, parseFloat: FloatParser) returns (r: Result<ConfigChange, HttpError>)
      modifies this
      ensures match CoerceSetting(update.setting, update.value, parseFloat)
        case Err(e) => r == Err(e) && config == old(config)
        case Ok(v) =>
          && r == Ok(ConfigChange(update.setting, FieldOr(old(config), update.setting, JNull), v))
          && config == old(config)[update.setting := v]
      ensures events == old(events)
    {
      match CoerceSetting(update.setting, update.value, parseFloat) {
        case Err(e) =>
          r := Err(e);
        case Ok(v) =>
          var oldValue := if update.setting in config then config[update.setting] else JNull;
          config := config[update.setting := v];
          r := Ok(ConfigChange(update.setting, oldValue, v));
      }
    }

    /** POST /config: a setting outside the allow-list is answered with 422
        and changes nothing. */
    method UpdateConfigRequest(setting: string, value: string, parseFloat: FloatParser)
      returns (r: Result<ConfigChange, HttpError>)
      modifies this
      ensures setting !in AllowedSettings ==> r == Err(HttpError(422, SettingMessage)) && config == old(config)
      ensures setting in AllowedSettings ==>
        match CoerceSetting(setting, value, parseFloat)
        case Err(e) => r == Err(e) && config == old(config)
        case Ok(v) =>
          && r == Ok(ConfigChange(setting, FieldOr(old(config), setting, JNull), v))
          && config == old(config)[setting := v]
      ensures events == old(events)
    {
      match NewConfigUpdate(setting, value) {
        case Err(m) =>
          r := Err(HttpError(422, m));
        case Ok(update) =>
          r := UpdateConfig(update, parseFloat);
      }
    }
  }
}
