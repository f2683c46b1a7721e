/** The request models of the REST back end: the validators of a new event's
    date and time, the allow-list of a configuration update, and the defaults
    of the optional fields. */
module Models {
  import opened Values
  import opened Text
  import opened DateTime

  const DateMessage := "Invalid date format. Use YYYY-MM-DD"
  const TimeMessage := "Invalid time format. Use HH:MM"

  /** `EventCreate.validate_date`: the value unchanged when `strptime` reads
      it as `%Y-%m-%d`. */
  function ValidateDate(v: string): (r: Result<string, string>)
    ensures r.Ok? <==> ParseDate(v).Some?
    ensures r.Ok? ==> r.value == v
    ensures r.Err? ==> r.error == DateMessage
  {
    if ParseDate(v).Some? then Ok(v) else Err(DateMessage)
  }

  /** `EventCreate.validate_time`: an empty or blank value passes unchanged;
      any other must read as `%H:%M`. */
  function ValidateTime(v: string): (r: Result<string, string>)
    ensures Strip(v) == "" ==> r == Ok(v)
    ensures Strip(v) != "" ==> (r.Ok? <==> ParseTime(v).Some?)
    ensures r.Ok? ==> r.value == v
    ensures r.Err? ==> r.error == TimeMessage
  {
    if v != "" && Strip(v) != "" then
      if ParseTime(v).Some? then Ok(v) else Err(TimeMessage)
    else Ok(v)
  }

  const AllowedSettings: seq<string> :=
    ["default_country", "default_language", "max_articles", "api_timeout", "max_concurrent_requests"]

  const SettingMessage := "Invalid setting. Allowed: ['default_country', 'default_language', 'max_articles', 'api_timeout', 'max_concurrent_requests']"

  /** `ConfigUpdate.validate_setting`. */
  function ValidateSetting(v: string): (r: Result<string, string>)
    ensures r.Ok? <==> v in AllowedSettings
    ensures r.Ok? ==> r.value == v
    ensures r.Err? ==> r.error == SettingMessage
  {
    if v in AllowedSettings then Ok(v) else Err(SettingMessage)
  }

  /** A validated `EventCreate`. */
  datatype EventCreate = EventCreate(title: string, date: string, description: string, time: string, location: string)

  function OrEmpty(s: Option<string>): string
  {
    if s.Some? then s.value else ""
  }

  /** Building an `EventCreate`: the optional fields default to "", and the
      messages of every failing validator are collected in field order. */
  function NewEventCreate(title: string, date: string, description: Option<string>, time: Option<string>,
                          location: Option<string>): (r: Result<EventCreate, seq<string>>)
    ensures r.Ok? <==> ValidateDate(date).Ok? && ValidateTime(OrEmpty(time)).Ok?
    ensures r.Ok? ==> r.value == EventCreate(title, date, OrEmpty(description), OrEmpty(time), OrEmpty(location))
    ensures r.Err? ==> (DateMessage in r.error <==> ValidateDate(date).Err?)
    ensures r.Err? ==> (TimeMessage in r.error <==> ValidateTime(OrEmpty(time)).Err?)
  {
    var t := OrEmpty(time);
    var errors := (if ValidateDate(date).Err? then [DateMessage] else []) + (if ValidateTime(t).Err? then [TimeMessage] else []);
    if errors == [] then Ok(EventCreate(title, date, OrEmpty(description), t, OrEmpty(location)))
    else Err(errors)
  }

  /** A validated `ConfigUpdate`. */
  datatype ConfigUpdate = ConfigUpdate(setting: string, value: string)

  function NewConfigUpdate(setting: string, value: string): (r: Result<ConfigUpdate, string>)
    ensures r.Ok? <==> setting in AllowedSettings
    ensures r.Ok? ==> r.value == ConfigUpdate(setting, value)
    ensures r.Err? ==> r.error == SettingMessage
  {
    match ValidateSetting(setting)
    case Ok(s) => Ok(ConfigUpdate(s, value))
    case Err(m) => Err(m)
  }

  /** A blank time passes the validator. */
  lemma BlankTimeAccepted(n: nat)
    ensures ValidateTime(seq(n, _ => ' ')) == Ok(seq(n, _ => ' '))
  {
    var v := seq(n, _ => ' ');
    assert forall i :: 0 <= i < |v| ==> IsSpace(v[i]);
    BlankStrips(v);
  }

  lemma {:induction false} BlankStrips(v: string)
    requires forall i :: 0 <= i < |v| ==> IsSpace(v[i])
    ensures Strip(v) == ""
  {
    if v != [] {
      BlankStrips(v[1..]);
      assert LStrip(v) == LStrip(v[1..]);
    }
  }
}
