/** JSON values and the Python operations the modelled code applies to them. */
module Json {

  datatype Json =
    | JNull
    | JBool(b: bool)
    | JNum(n: int)
    | JStr(s: string)
    | JArr(items: seq<Json>)
    | JObj(fields: map<string, Json>)

  /** `value.get(key)` on a dictionary: null when the key is absent. */
  function Get(j: Json, key: string): Json {
    if j.JObj? && key in j.fields then j.fields[key] else JNull
  }

  /** `bool(value)`. */
  predicate Truthy(j: Json) {
    match j
    case JNull => false
    case JBool(b) => b
    case JNum(n) => n != 0
    case JStr(s) => s != ""
    case JArr(items) => items != []
    case JObj(fields) => fields != map[]
  }

  predicate Numeric(j: Json) {
    j.JBool? || j.JNum?
  }

  function AsNumber(j: Json): int
    requires Numeric(j)
  {
    match j
    case JBool(b) => if b then 1 else 0
    case JNum(n) => n
  }

  /** Python's `==`: structural, except that booleans compare as the numbers 0 and 1. */
  predicate PyEq(a: Json, b: Json)
    decreases a
  {
    match a
    case JNull => b.JNull?
    case JStr(_) => a == b
    case JBool(_) => Numeric(b) && AsNumber(a) == AsNumber(b)
    case JNum(_) => Numeric(b) && AsNumber(a) == AsNumber(b)
    case JArr(x) => b.JArr? && |x| == |b.items| && forall i :: 0 <= i < |x| ==> PyEq(x[i], b.items[i])
    case JObj(m) => b.JObj? && m.Keys == b.fields.Keys && forall k :: k in m.Keys ==> PyEq(m[k], b.fields[k])
  }

  predicate OccursAt(needle: string, text: string, i: int) {
    0 <= i <= |text| - |needle| && text[i..i + |needle|] == needle
  }

  /** `needle in text`. */
  predicate Occurs(needle: string, text: string) {
    exists i :: 0 <= i <= |text| && OccursAt(needle, text, i)
  }
}
