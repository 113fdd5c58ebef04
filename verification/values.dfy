/** Values shared by the whole model: optional values, results of operations
    that may raise, the JSON values exchanged with the completion service and
    returned to HTTP clients, and two string predicates. */
module Values {

  /** Python's `Optional[...]`: a field that may hold `None`. */
  datatype Option<+T> = None | Some(value: T)

  /** The outcome of an operation that either returns a value or raises an
      exception; `error` is the exception's message (`str(e)`). */
  datatype Result<+T> = Success(value: T) | Failure(error: string)

  /** A JSON value as Python's `json` module yields it: a JSON object becomes
      a `dict` (here `JObject`, keyed by field name) and a JSON array a `list`. */
  datatype Json =
    | JNull
    | JBool(b: bool)
    | JInt(i: int)
    | JFloat(r: real)
    | JString(s: string)
    | JArray(items: seq<Json>)
    | JObject(fields: map<string, Json>)

  /** `s.startswith(prefix)` */
  predicate StartsWith(s: string, prefix: string) {
    |prefix| <= |s| && s[..|prefix|] == prefix
  }

  /** `s.endswith(suffix)` */
  predicate EndsWith(s: string, suffix: string) {
    |suffix| <= |s| && s[|s| - |suffix|..] == suffix
  }
}
