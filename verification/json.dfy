/** The values `JSON.parse` / `response.json()` produce, and JavaScript truthiness on them. */
module Json {
  import opened Wrappers

  /**
   * A parsed JSON value. JSON numbers are finite, so `real` covers them
   * (there is no NaN, Infinity or `undefined` in parsed JSON).
   */
  datatype JsValue =
    | JNull
    | JBool(b: bool)
    | JNum(n: real)
    | JStr(s: string)
    | JArr(items: seq<JsValue>)
    | JObj(fields: map<string, JsValue>)

  /** JavaScript truthiness: `false`, `0`, `""` and `null` are falsy; arrays and objects are truthy. */
  predicate Truthy(v: JsValue) {
    match v
    case JNull => false
    case JBool(b) => b
    case JNum(n) => n != 0.0
    case JStr(s) => s != ""
    case _ => true
  }

  /** Property read `v.key` on a value that is not `null`; `None` stands for `undefined`. */
  function Get(v: JsValue, key: string): (r: Option<JsValue>)
    ensures r.Some? <==> v.JObj? && key in v.fields
  {
    if v.JObj? && key in v.fields then Some(v.fields[key]) else None
  }

  /** Truthiness of a property read, where `undefined` is falsy. */
  predicate TruthyField(v: JsValue, key: string) {
    var f := Get(v, key);
    f.Some? && Truthy(f.value)
  }
}
