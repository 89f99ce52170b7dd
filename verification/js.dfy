/** JavaScript values as the client library sees them: arguments a caller may omit
    or pass as `null`, the JSON values a server sends back, and truthiness. */
module Js {

  datatype Option<+T> = None | Some(value: T)

  /** A JavaScript argument: left out (`undefined`), passed as `null`, or given. */
  datatype Arg<+T> = Undefined | Null | Given(value: T) {
    /** An object argument is truthy exactly when it is given. */
    predicate Present() {
      Given?
    }
  }

  /** A string argument is truthy when it is given and is not the empty string. */
  predicate NonEmpty(s: Arg<string>) {
    s.Given? && s.value != ""
  }

  /** The JSON values a response body or a thrown value can hold
      (numbers are modelled as integers). */
  datatype Json =
    | JNull
    | JBool(b: bool)
    | JNumber(n: int)
    | JString(s: string)
    | JArray(items: seq<Json>)
    | JObject(fields: seq<(string, Json)>)

  /** JavaScript truthiness: `null`, `false`, `0` and `""` are falsy, everything else is truthy. */
  predicate Truthy(v: Json)
    ensures Truthy(v) <==> v !in {JNull, JBool(false), JNumber(0), JString("")}
  {
    match v
    case JNull => false
    case JBool(b) => b
    case JNumber(n) => n != 0
    case JString(s) => s != ""
    case JArray(_) => true
    case JObject(_) => true
  }

  /** A call that either returns a value or throws synchronously. */
  datatype Result<+T, +E> = Success(value: T) | Failure(error: E)
}
