/** The values `JSON.parse` produces, with the JavaScript semantics the flow validator
    relies on: property access, truthiness and strict equality. */
module Json {
  import opened Wrappers

  /** A parsed JSON value. Numbers are kept exact; an object is a map from its keys to
      the last value given for each key, as `JSON.parse` keeps it. */
  datatype Json =
    | JNull
    | JBool(b: bool)
    | JNumber(n: real)
    | JString(s: string)
    | JArray(items: seq<Json>)
    | JObject(fields: map<string, Json>)

  /** `v.key` on a value that is not `null`; `None` is `undefined`. Arrays, strings,
      numbers and booleans have none of the keys the core reads. */
  function Get(v: Json, key: string): (r: Option<Json>)
    ensures r.Some? <==> v.JObject? && key in v.fields
    ensures r.Some? ==> r.value == v.fields[key]
  {
    if v.JObject? && key in v.fields then Some(v.fields[key]) else None
  }

  /** JavaScript truthiness: `undefined`, `null`, `false`, `0` and `""` are falsy,
      every array and object is truthy. */
  predicate Truthy(v: Option<Json>) {
    match v
    case None => false
    case Some(JNull) => false
    case Some(JBool(b)) => b
    case Some(JNumber(n)) => n != 0.0
    case Some(JString(s)) => s != ""
    case Some(JArray(_)) => true
    case Some(JObject(_)) => true
  }

  /** `Array.isArray(v)` */
  predicate IsArray(v: Option<Json>) {
    v.Some? && v.value.JArray?
  }

  /** `a === b` for two values read out of one parsed document: primitives compare by
      value, while two arrays or objects are never the same reference, because the
      parser builds a fresh one for every occurrence. */
  predicate StrictEquals(a: Option<Json>, b: Option<Json>) {
    match (a, b)
    case (None, None) => true
    case (Some(JNull), Some(JNull)) => true
    case (Some(JBool(x)), Some(JBool(y))) => x == y
    case (Some(JNumber(x)), Some(JNumber(y))) => x == y
    case (Some(JString(x)), Some(JString(y))) => x == y
    case _ => false
  }
}
