/** The values `JSON.parse` can produce, and the two pieces of JavaScript
    semantics the handler applies to them: truthiness (`!x`) and reading a
    named property (`x.name`). */
module Json {
  import opened Wrappers

  /** A parsed JSON document. Numbers are kept as exact reals. */
  datatype JsonValue =
    | JNull
    | JBool(b: bool)
    | JNumber(n: real)
    | JString(s: string)
    | JArray(items: seq<JsonValue>)
    | JObject(members: map<string, JsonValue>)

  /** JavaScript truthiness of a parsed value: `null`, `false`, `0` and `""`
      are falsy; every array and every object is truthy, even an empty one. */
  predicate Truthy(v: JsonValue)
  {
    match v
    case JNull => false
    case JBool(b) => b
    case JNumber(n) => n != 0.0
    case JString(s) => s != ""
    case JArray(_) => true
    case JObject(_) => true
  }

  /** What evaluating `v.key` gives: `undefined`, a value, or a thrown
      TypeError (reading any property of `null`). */
  datatype PropertyRead = Undefined | Defined(value: JsonValue) | ThrowsTypeError

  /** JavaScript `v.key` for a key that names no built-in property of strings,
      arrays or objects (such as the handler's three field names): only an
      object's own member is found, and only `null` throws. */
  function ReadProperty(v: JsonValue, key: string): (r: PropertyRead)
    ensures r.ThrowsTypeError? <==> v.JNull?
    ensures r.Defined? <==> v.JObject? && key in v.members
    ensures r.Defined? ==> r.value == v.members[key]
  {
    match v
    case JNull => ThrowsTypeError
    case JObject(m) => if key in m then Defined(m[key]) else Undefined
    case _ => Undefined
  }

  /** JavaScript truthiness of a string that may be absent (`undefined` or
      `null`): only a present, non-empty string is truthy. */
  predicate TruthyString(s: Option<string>)
  {
    s.Some? && s.value != ""
  }

  /** The falsy parsed values are exactly `null`, `false`, `0` and `""`. */
  lemma FalsyValues(v: JsonValue)
    ensures !Truthy(v) <==> v in {JNull, JBool(false), JNumber(0.0), JString("")}
  {
  }
}
