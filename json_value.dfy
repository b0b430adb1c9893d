/** The values `json.loads` produces, as the configuration code sees them:
    `None`, booleans, integers, strings, lists and dicts. */
module JsonValue {

  import opened Wrappers

  datatype Json =
    | JNull
    | JBool(b: bool)
    | JNum(n: int)
    | JStr(s: string)
    | JArr(items: seq<Json>)
    | JObj(fields: map<string, Json>)

  /** Python truthiness: `not v` holds for None, False, 0, "", [] and {}. */
  predicate Falsy(v: Json) {
    match v
    case JNull => true
    case JBool(b) => !b
    case JNum(n) => n == 0
    case JStr(s) => s == []
    case JArr(xs) => xs == []
    case JObj(m) => m == map[]
  }

  /** `d.get(key, default)` on a dict. */
  function GetOr(m: map<string, Json>, key: string, default: Json): (v: Json)
    ensures key in m ==> v == m[key]
    ensures key !in m ==> v == default
  {
    if key in m then m[key] else default
  }

  /** `list(v)`: the elements of a list, or the characters of a string each as
      a one-character string. `None`, booleans and numbers are not iterable
      (Python raises `TypeError`), which is `None` here; so is a dict, whose
      keys Python would list in insertion order, an order this model does not
      keep. */
  function PyList(v: Json): (r: Option<seq<Json>>)
    ensures v.JArr? ==> r == Some(v.items)
    ensures v.JStr? ==> r.Some? && |r.value| == |v.s|
    ensures !v.JArr? && !v.JStr? ==> r == None
  {
    match v
    case JArr(xs) => Some(xs)
    case JStr(s) => Some(seq(|s|, i requires 0 <= i < |s| => JStr([s[i]])))
    case _ => None
  }
}
