/**
 * JSON values: the maps the back end's controllers serialize and what `JSON.parse` gives the
 * front end, with the few pieces of JavaScript semantics the client code relies on: truthiness,
 * property access and `String(v)`.
 * Numbers are modelled as integers (every number the client code inspects is an id or a count).
 */
module JsonValues {
  import opened Common

  datatype Json =
    | JNull
    | JBool(b: bool)
    | JNum(n: int)
    | JStr(s: string)
    | JArr(items: seq<Json>)
    | JObj(fields: map<string, Json>)

  /** JavaScript truthiness: null, false, 0 and "" are falsy; arrays and objects are truthy. */
  predicate Truthy(v: Json)
  {
    match v
    case JNull => false
    case JBool(b) => b
    case JNum(n) => n != 0
    case JStr(s) => s != ""
    case JArr(_) => true
    case JObj(_) => true
  }

  /** Truthiness of a possibly-undefined value (`None` is `undefined`). */
  predicate TruthyOpt(v: Option<Json>)
  {
    v.Some? && Truthy(v.value)
  }

  /**
   * `v.key` for a value that is not null: an own field of an object, `undefined` for
   * everything else (a parsed array, string, number or boolean has no such data property).
   */
  function Prop(v: Json, key: string): Option<Json>
  {
    if v.JObj? && key in v.fields then Some(v.fields[key]) else None
  }

  /** The message of the `TypeError` that reading property `prop` of `null` raises. */
  function NullRead(prop: string): string
  {
    "Cannot read properties of null (reading '" + prop + "')"
  }

  /** `typeof v === "object"`; true for null, arrays and objects, as in JavaScript. */
  predicate TypeofObject(v: Json)
  {
    v.JNull? || v.JArr? || v.JObj?
  }

  /** `String(v)`, the conversion `new Error(v)` applies to its argument. */
  function ToJsString(v: Json): string
  {
    match v
    case JNull => "null"
    case JBool(b) => if b then "true" else "false"
    case JNum(n) => IntToDecimal(n)
    case JStr(s) => s
    case JArr(items) => JoinItems(items)
    case JObj(_) => "[object Object]"
  }

  /** `Array.prototype.join(",")`: null entries become the empty string. */
  function JoinItems(items: seq<Json>): string
    decreases items
  {
    if items == [] then ""
    else
      var head := if items[0].JNull? then "" else ToJsString(items[0]);
      if |items| == 1 then head else head + "," + JoinItems(items[1..])
  }

  /** A Java `String` field of the JSON output: its text, or JSON null for a null reference. */
  function Text(v: Option<string>): (j: Json)
    ensures j.JNull? <==> v.None?
    ensures j.JStr? ==> v == Some(j.s)
  {
    if v.Some? then JStr(v.value) else JNull
  }
}
