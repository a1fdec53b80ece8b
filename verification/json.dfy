/** Decoded JSON values, and the two JavaScript coercions the client applies to them:
    truthiness (`x || y`, `if (x)`) and `String(x)`. */
module Json {
  import opened Base

  /** A value as `JSON.parse` returns it. Numbers are integers in this model. */
  datatype Json =
    | JNull
    | JBool(b: bool)
    | JNum(n: int)
    | JStr(s: string)
    | JArr(items: seq<Json>)
    | JObj(fields: map<string, Json>)

  /** JavaScript truthiness: `null`, `false`, `0` and `''` are falsy; arrays and objects,
      even empty ones, are truthy. */
  predicate Truthy(j: Json) {
    match j
    case JNull => false
    case JBool(b) => b
    case JNum(n) => n != 0
    case JStr(s) => s != ""
    case JArr(_) => true
    case JObj(_) => true
  }

  /** `j.key` (and `j?.key`): only objects carry named properties; anything else reads as
      `undefined`. */
  function Property(j: Json, key: string): (r: Option<Json>)
    ensures r.Some? <==> j.JObj? && key in j.fields
    ensures r.Some? ==> r.value == j.fields[key]
  {
    if j.JObj? && key in j.fields then Some(j.fields[key]) else None
  }

  /** `'key' in j` for an object. */
  predicate Has(j: Json, key: string) {
    j.JObj? && key in j.fields
  }

  /** JavaScript's `String(j)`. */
  function AsString(j: Json): string
    decreases j, 1
  {
    match j
    case JNull => "null"
    case JBool(b) => if b then "true" else "false"
    case JNum(n) => IntToString(n)
    case JStr(s) => s
    case JArr(items) => JoinItems(items, j)
    case JObj(_) => "[object Object]"
  }

  /** `Array.prototype.join(',')`, which `String` applies to arrays: a `null` element
      contributes the empty string. */
  function JoinItems(items: seq<Json>, ghost whole: Json): string
    requires forall i :: 0 <= i < |items| ==> items[i] < whole
    decreases whole, 0, |items|
  {
    if items == [] then ""
    else
      var head := if items[0].JNull? then "" else AsString(items[0]);
      if |items| == 1 then head else head + "," + JoinItems(items[1..], whole)
  }
}
