/** The JavaScript values the application receives from `JSON.parse` and
    keeps in its records, with the coercions the code applies to them:
    truthiness (`!x`, `x ? a : b`, `a || b`), nullishness (`a ?? b`),
    property access and conversion to text (`String(x)`, template literals). */
module Js {
  import opened Wrappers
  import opened Strings

  /** A JSON value, plus `undefined`. A number is kept as the text JavaScript
      prints for it (`String(x)`, where -0 prints as "0"): the model does no
      arithmetic on numbers. */
  datatype JsValue =
    | JUndefined
    | JNull
    | JBool(b: bool)
    | JNumber(text: string)
    | JString(s: string)
    | JArray(items: seq<JsValue>)
    | JObject(props: map<string, JsValue>)

  /** `!!v`: `undefined`, `null`, `false`, `0`, `-0`, `NaN` and `""` are falsy,
      everything else (every array and object included) is truthy. */
  predicate Truthy(v: JsValue) {
    match v
    case JUndefined => false
    case JNull => false
    case JBool(b) => b
    case JNumber(t) => t != "0" && t != "-0" && t != "NaN"
    case JString(s) => s != ""
    case JArray(_) => true
    case JObject(_) => true
  }

  /** `v == null`, the test `??` makes. */
  predicate Nullish(v: JsValue) {
    v.JUndefined? || v.JNull?
  }

  /** `v.key` on a value that is not `null` or `undefined`: an own property of
      an object, and `undefined` for everything else. */
  function Get(v: JsValue, key: string): (r: JsValue)
    requires !Nullish(v)
    ensures !v.JObject? ==> r == JUndefined
    ensures v.JObject? && key !in v.props ==> r == JUndefined
  {
    if v.JObject? && key in v.props then v.props[key] else JUndefined
  }

  /** `v.key` on any value: on `null` and `undefined` it throws V8's TypeError. */
  function GetProperty(v: JsValue, key: string): (r: Result<JsValue, string>)
    ensures r.Err? <==> Nullish(v)
    ensures r.Ok? ==> r.value == Get(v, key)
  {
    if Nullish(v) then
      Err("Cannot read properties of " + (if v.JNull? then "null" else "undefined") + " (reading '" + key + "')")
    else Ok(Get(v, key))
  }

  /** `String(v)`, which template literals also apply. */
  function ToJsString(v: JsValue): string
  {
    match v
    case JUndefined => "undefined"
    case JNull => "null"
    case JBool(b) => if b then "true" else "false"
    case JNumber(t) => t
    case JString(s) => s
    case JArray(items) => Join(ElementStrings(items), ",")
    case JObject(_) => "[object Object]"
  }

  /** The items of an array as `join` writes them: `null` and `undefined` as "". */
  function ElementStrings(items: seq<JsValue>): (r: seq<string>)
    ensures |r| == |items|
  {
    if |items| == 0 then []
    else
      var last := items[|items| - 1];
      ElementStrings(items[..|items| - 1]) + [if Nullish(last) then "" else ToJsString(last)]
  }
}
