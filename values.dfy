/** Value types shared by every part of the gateway: Python's optional values,
    results that carry an error instead of raising, JSON data as json.loads
    produces it, and the HTTP errors the REST back end raises. */
module Values {

  datatype Option<T> = None | Some(value: T)

  /** A computation that either produced a value or raised an error. */
  datatype Result<T, E> = Ok(value: T) | Err(error: E)

  /** A JSON value. Objects are maps: the order of a dict's keys only shows
      when a value is rendered, and rendering is left abstract. */
  datatype Json =
    | JNull
    | JBool(b: bool)
    | JInt(i: int)
    | JReal(r: real)
    | JString(s: string)
    | JArray(items: seq<Json>)
    | JObject(fields: map<string, Json>)

  /** Python truthiness of the value json.loads returns. */
  predicate Truthy(j: Json)
  {
    match j
    case JNull => false
    case JBool(b) => b
    case JInt(i) => i != 0
    case JReal(r) => r != 0.0
    case JString(s) => s != ""
    case JArray(items) => items != []
    case JObject(fields) => fields != map[]
  }

  /** `d.get(key)` on a parsed object; None when the key is absent. */
  function Field(fields: map<string, Json>, key: string): Option<Json>
  {
    if key in fields then Some(fields[key]) else None
  }

  /** `d.get(key, default)`. */
  function FieldOr(fields: map<string, Json>, key: string, default: Json): Json
  {
    if key in fields then fields[key] else default
  }

  /** The `{"error": message}` dictionary the client and the aggregator return. */
  function ErrorDict(message: string): Json
  {
    JObject(map["error" := JString(message)])
  }

  /** A FastAPI HTTPException: a status code and a detail message. */
  datatype HttpError = HttpError(status: int, detail: string)

  /** Why a parser such as json.loads refused a text: a JSONDecodeError for
      text that is not JSON, or another exception it raises on text that is
      (a ValueError for an integer of more than 4300 digits, a RecursionError
      for nesting past the recursion limit). `message` is `str(e)`. */
  datatype ParseError = DecodeError(message: string) | OtherError(message: string)

  /** A parser such as json.loads: a value, or the exception it raised. */
  type JsonParser = string -> Result<Json, ParseError>
}
