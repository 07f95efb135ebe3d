/** JavaScript values as they travel through `JSON.parse`/`JSON.stringify`, with the
    truthiness and string conversion the code applies to them. Numbers are integers. */
module Json {
  import opened Wrappers
  import Text

  datatype Json =
    | JNull
    | JBool(b: bool)
    | JNum(n: int)
    | JStr(s: string)
    | JArr(items: seq<Json>)
    | JObj(fields: map<string, Json>)

  /** JavaScript `ToBoolean`: null, false, 0 and "" are falsy; arrays and objects are truthy. */
  predicate Truthy(v: Json) {
    match v
    case JNull => false
    case JBool(b) => b
    case JNum(n) => n != 0
    case JStr(s) => s != ""
    case JArr(_) => true
    case JObj(_) => true
  }

  /** Truthiness of a possibly-undefined value. */
  predicate DefinedTruthy(v: Option<Json>) {
    v.Some? && Truthy(v.value)
  }

  /** Property read `v.key` on a non-null value: defined only on objects that have the key. */
  function Field(v: Json, key: string): (r: Option<Json>)
    ensures r.Some? <==> v.JObj? && key in v.fields
  {
    if v.JObj? && key in v.fields then Some(v.fields[key]) else None
  }

  /** JavaScript `String(v)`, as `new Error(v)` applies it to its message. */
  function ToJsString(v: Json): string
    decreases v
  {
    match v
    case JNull => "null"
    case JBool(b) => if b then "true" else "false"
    case JNum(n) => Text.IntToString(n)
    case JStr(s) => s
    case JArr(items) =>
      Text.Join(seq(|items|, i requires 0 <= i < |items| =>
                  if items[i] == JNull then "" else ToJsString(items[i])), ',')
    case JObj(_) => "[object Object]"
  }

  /** Truthiness of a possibly-undefined string: present and non-empty. */
  predicate Filled(o: Option<string>) {
    o.Some? && o.value != ""
  }

  /** `o || d` on a possibly-undefined string. */
  function OrStr(o: Option<string>, d: string): (r: string)
    ensures Filled(o) ==> r == o.value
    ensures !Filled(o) ==> r == d
  {
    if Filled(o) then o.value else d
  }

  /** `a || b`: the first operand when it is truthy, otherwise the second. */
  function Or(a: Option<Json>, b: Json): (r: Json)
    ensures DefinedTruthy(a) ==> r == a.value
    ensures !DefinedTruthy(a) ==> r == b
  {
    if DefinedTruthy(a) then a.value else b
  }
}
