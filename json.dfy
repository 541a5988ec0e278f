/**
 * The values that Go's encoding/json produces when it decodes a payload into
 * `map[string]interface{}`, and the comma-ok type assertions that machine.go
 * applies to them.
 *
 * encoding/json gives every JSON number the dynamic type float64; here a number
 * is an `int` (fractions are not modelled). A string is a Go string, `true` and
 * `false` are bool, `null` is the nil interface, an array is a
 * `[]interface{}` and an object a `map[string]interface{}`.
 */
module Json {

  datatype JsonValue =
    | JNull
    | JBool(b: bool)
    | JNumber(n: int)
    | JString(s: string)
    | JArray(elems: seq<JsonValue>)
    | JObject(members: map<string, JsonValue>)

  /** Go's `xs[key]` on a `map[string]interface{}`: a missing key gives the nil
      interface, exactly as an explicit `null` does. */
  function Lookup(xs: map<string, JsonValue>, key: string): JsonValue
  {
    if key in xs then xs[key] else JNull
  }

  /** A Go `interface{}` value, by its dynamic type. Only the types that
      matter to machine.go are told apart; every other type is `GoOther`. */
  datatype GoValue =
    | GoNil
    | GoBool(b: bool)
    | GoFloat64(f: int)
    | GoInt(i: int)
    | GoString(s: string)
    | GoSlice(elems: seq<GoValue>)
    | GoMap(members: map<string, GoValue>)
    | GoOther

  /** The value encoding/json stores in an `interface{}` for a JSON value:
      null is nil, a boolean is bool, every number is float64, a string is
      string, an array is `[]interface{}` and an object
      `map[string]interface{}`. */
  function Stored(v: JsonValue): (g: GoValue)
    decreases v
    ensures !g.GoInt? && !g.GoOther?
    ensures v.JNull? <==> g.GoNil?
    ensures v.JNumber? <==> g.GoFloat64?
    ensures v.JString? <==> g.GoString?
  {
    match v
    case JNull => GoNil
    case JBool(b) => GoBool(b)
    case JNumber(n) => GoFloat64(n)
    case JString(s) => GoString(s)
    case JArray(elems) => GoSlice(seq(|elems|, i requires 0 <= i < |elems| => Stored(elems[i])))
    case JObject(members) => GoMap(map k | k in members :: Stored(members[k]))
  }

  /** `xs[key]` on the `map[string]interface{}` that encoding/json fills from
      the JSON object `xs`. */
  function Field(xs: map<string, JsonValue>, key: string): GoValue
  {
    Stored(Lookup(xs, key))
  }

  /** `g.(float64)` in its comma-ok form, followed by `int(...)`: the number
      itself, or float64's zero value when `g` holds another type. */
  function AssertFloat64(g: GoValue): int
  {
    match g
    case GoFloat64(f) => f
    case _ => 0
  }

  /** `g.(string)` in its comma-ok form: the string itself, or "" when `g`
      holds another type. */
  function AssertString(g: GoValue): string
  {
    match g
    case GoString(s) => s
    case _ => ""
  }

  /** `g.(int)` in its comma-ok form: the integer itself, or 0 when `g` holds
      another type. */
  function AssertInt(g: GoValue): int
  {
    match g
    case GoInt(i) => i
    case _ => 0
  }

  /** On a decoded JSON value, `.(float64)` yields the JSON number, and 0 for
      every other kind of value. */
  lemma Float64AssertionOnDecoded(v: JsonValue)
    ensures AssertFloat64(Stored(v)) == if v.JNumber? then v.n else 0
  {
  }

  /** On a decoded JSON value, `.(string)` yields the JSON string, and "" for
      every other kind of value. */
  lemma StringAssertionOnDecoded(v: JsonValue)
    ensures AssertString(Stored(v)) == if v.JString? then v.s else ""
  {
  }

  /** On a decoded JSON value, `.(int)` never succeeds, because encoding/json
      stores no value with the dynamic type int. Even a JSON number yields 0. */
  lemma IntAssertionOnDecoded(v: JsonValue)
    ensures AssertInt(Stored(v)) == 0
  {
  }
}
