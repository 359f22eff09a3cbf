/** Values shared by every part of the model: optional and failing results,
    JSON values as JavaScript sees them, and the arithmetic helpers that
    stand for `Math.round`, `Math.abs` and `Math.max`. */
module Common {

  datatype Option<+T> = None | Some(value: T)

  datatype Result<+T, +E> = Success(value: T) | Failure(error: E)

  /** A JSON value. Objects are maps, so the order of their keys is not
      modelled; `undefined` (a missing property) is `None` of an `Option<Json>`. */
  datatype Json =
    | JNull
    | JBool(b: bool)
    | JNum(n: real)
    | JStr(s: string)
    | JArr(items: seq<Json>)
    | JObj(fields: map<string, Json>)

  /** JavaScript truthiness of a present value (NaN is not modelled). */
  predicate Truthy(v: Json) {
    match v
    case JNull => false
    case JBool(b) => b
    case JNum(n) => n != 0.0
    case JStr(s) => s != ""
    case JArr(_) => true
    case JObj(_) => true
  }

  /** Truthiness of a value that may be `undefined`. */
  predicate Present(v: Option<Json>) {
    v.Some? && Truthy(v.value)
  }

  /** Property access `v[key]` on a parsed JSON value: only objects have
      own properties here (array indices and prototype keys are not modelled). */
  function Member(v: Json, key: string): (r: Option<Json>)
    ensures r.Some? <==> v.JObj? && key in v.fields
  {
    if v.JObj? && key in v.fields then Some(v.fields[key]) else None
  }

  /** Optional chaining `v?.k1?.k2...`: `undefined` as soon as a step is
      `undefined`, `null` or lacks the key. */
  function Path(v: Option<Json>, keys: seq<string>): (r: Option<Json>)
    ensures keys == [] ==> r == v
    ensures keys != [] && r.Some? ==> v.Some? && v.value.JObj? && keys[0] in v.value.fields
    decreases |keys|
  {
    if keys == [] || v.None? then v
    else Path(Member(v.value, keys[0]), keys[1..])
  }

  /** `v ?? d`: the default only for `undefined` and `null`. */
  function Coalesce(v: Option<Json>, d: Json): (r: Json)
    ensures v.None? || v == Some(JNull) ==> r == d
    ensures v.Some? && v.value != JNull ==> r == v.value
  {
    if v.None? || v.value == JNull then d else v.value
  }

  /** `v || d`: the default for every falsy value. */
  function Or(v: Option<Json>, d: Json): (r: Json)
    ensures Present(v) ==> r == v.value
    ensures !Present(v) ==> r == d
  {
    if Present(v) then v.value else d
  }

  /** `Math.round`: the nearest integer, halves rounded towards +infinity. */
  function Round(x: real): (r: int)
    ensures x - 0.5 < r as real <= x + 0.5
  {
    (x + 0.5).Floor
  }

  function Abs(x: real): (r: real)
    ensures r >= 0.0 && (r == x || r == -x)
  {
    if x < 0.0 then -x else x
  }

  function Max(a: real, b: real): (r: real)
    ensures r >= a && r >= b && (r == a || r == b)
  {
    if a < b then b else a
  }
}
