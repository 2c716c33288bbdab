/**
 * JavaScript values as far as the history exporter looks at them: optional
 * values (`undefined` versus a value), results of operations that can throw,
 * parsed JSON documents and JavaScript truthiness.
 */
module JsValues {

  /** A value that may be `undefined`. */
  datatype Option<+T> = None | Some(value: T)

  /** The outcome of an operation that either returns or throws. */
  datatype Result<+R, +E> = Success(value: R) | Failure(error: E)

  /** A parsed JSON document (what `JSON.parse` or `res.json()` yields). */
  datatype Json =
    | JNull
    | JBool(b: bool)
    | JNumber(n: real)
    | JString(s: string)
    | JArray(items: seq<Json>)
    | JObject(fields: map<string, Json>)

  /** JavaScript truthiness of a JSON value: `null`, `false`, `0` and `""` are falsy. */
  predicate Truthy(j: Json) {
    match j
    case JNull => false
    case JBool(b) => b
    case JNumber(n) => n != 0.0
    case JString(s) => s != ""
    case JArray(_) => true
    case JObject(_) => true
  }

  /** Truthiness of a possibly undefined JSON value (`undefined` is falsy). */
  predicate TruthyJson(v: Option<Json>) {
    v.Some? && Truthy(v.value)
  }

  /** Truthiness of a possibly undefined (or null) string: the empty string is falsy. */
  predicate TruthyString(v: Option<string>) {
    v.Some? && v.value != ""
  }

  /** `obj?.[key]`: the named property of an object, `undefined` for anything else. */
  function Property(j: Json, key: string): Option<Json> {
    if j.JObject? && key in j.fields then Some(j.fields[key]) else None
  }

  /** A thrown JavaScript error: its `name` ("Error", "SyntaxError", ...) and `message`. */
  datatype JsError = JsError(name: string, message: string)

  /** `new Error(message)`. */
  function PlainError(message: string): JsError {
    JsError("Error", message)
  }

  /**
   * `String(e)` for an error (`Error.prototype.toString`): the name and the
   * message joined by ": ", or whichever of the two is non-empty.
   */
  function ErrorString(e: JsError): string {
    if e.message == "" then e.name
    else if e.name == "" then e.message
    else e.name + ": " + e.message
  }
}
