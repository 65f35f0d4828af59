/** Python values as they travel through the two views: query parameters,
    session entries, the upstream API's JSON and the JSON the views return. */
module Values {

  datatype Option<+T> = None | Some(value: T)

  /** A JSON-shaped Python value: `None`, a bool, an (integer) number, a
      string, a list or a dict with string keys. */
  datatype Json =
    | JNull
    | JBool(b: bool)
    | JNum(n: int)
    | JStr(s: string)
    | JArr(elems: seq<Json>)
    | JObj(fields: map<string, Json>)

  /** Python truthiness, as used by `if x:` and `if not x:`: `None`, `False`,
      zero and empty strings, lists and dicts are false. */
  predicate Truthy(v: Json) {
    match v
    case JNull => false
    case JBool(b) => b
    case JNum(n) => n != 0
    case JStr(s) => s != ""
    case JArr(xs) => xs != []
    case JObj(m) => m != map[]
  }

  /** `d.get(key, default)` on a dict. */
  function GetOr(d: map<string, Json>, key: string, default: Json): Json {
    if key in d then d[key] else default
  }

  /** `request.GET.get(key)`: the parameter's text, or `None` when absent. */
  function QueryGet(query: map<string, string>, key: string): (v: Json)
    ensures v.JNull? || v.JStr?
    ensures v.JStr? <==> key in query
    ensures key in query ==> v.s == query[key]
  {
    if key in query then JStr(query[key]) else JNull
  }
}
