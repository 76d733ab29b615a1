/**
 * Values as JavaScript sees them after `JSON.parse` or `response.json()`.
 * The parser itself is not modelled: callers pass it in as a function
 * `string -> Option<Json>` whose `None` stands for a thrown SyntaxError.
 */
module Json {

  datatype Option<+T> = None | Some(value: T) {
    function GetOr(default: T): T {
      match this
      case Some(v) => v
      case None => default
    }
  }

  /** A JSON value. Object keys are unique, as after `JSON.parse` (the last duplicate wins). */
  datatype Json =
    | JNull
    | JBool(b: bool)
    | JNum(n: real)
    | JStr(s: string)
    | JArr(items: seq<Json>)
    | JObj(fields: map<string, Json>)

  /**
   * Optional-chaining member access `v?.key`: `None` stands for `undefined`.
   * Only objects have own members among JSON values, so every other value
   * yields `undefined` (or, for `null`, short-circuits to `undefined`).
   */
  function Member(v: Json, key: string): (r: Option<Json>)
    ensures r.Some? <==> v.JObj? && key in v.fields
    ensures r.Some? ==> r.value == v.fields[key]
  {
    if v.JObj? && key in v.fields then Some(v.fields[key]) else None
  }

  /** `m?.key` where `m` may itself be `undefined`. */
  function MemberOf(m: Option<Json>, key: string): (r: Option<Json>)
    ensures r.Some? <==> m.Some? && m.value.JObj? && key in m.value.fields
    ensures r.Some? ==> r.value == m.value.fields[key]
  {
    match m
    case None => None
    case Some(v) => Member(v, key)
  }

  /**
   * JavaScript truthiness of an optional JSON value: `undefined`, `null`,
   * `false`, `0` and `""` are falsy, everything else (including `[]` and `{}`)
   * is truthy.
   */
  predicate Truthy(m: Option<Json>) {
    match m
    case None => false
    case Some(JNull) => false
    case Some(JBool(b)) => b
    case Some(JNum(x)) => x != 0.0
    case Some(JStr(s)) => s != ""
    case Some(JArr(_)) => true
    case Some(JObj(_)) => true
  }
}
