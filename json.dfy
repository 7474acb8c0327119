/**
  JSON values as the Python code sees them after `json.loads`: None, bool,
  int, str, list and dict. Floats never take part in any computation of the
  core and are left out.
*/
module Json {
  import opened Wrappers

  datatype Json =
    | JNull
    | JBool(b: bool)
    | JInt(i: int)
    | JStr(s: string)
    | JArr(items: seq<Json>)
    | JObj(fields: map<string, Json>)

  /** A JSON object, which is what every request and response body is. */
  type Body = map<string, Json>

  /** Python truthiness: None, False, 0, "", [] and {} are false. */
  predicate Truthy(v: Json) {
    match v
    case JNull => false
    case JBool(b) => b
    case JInt(i) => i != 0
    case JStr(s) => s != ""
    case JArr(xs) => xs != []
    case JObj(m) => m != map[]
  }

  /** `d.get(k)`: None (JSON null) when the key is absent. */
  function Get(d: Body, k: string): (v: Json)
    ensures k in d ==> v == d[k]
    ensures k !in d ==> v == JNull
  {
    if k in d then d[k] else JNull
  }

  /** `d.get(k, default)`. A key present with value null yields null, not the default. */
  function GetOr(d: Body, k: string, default: Json): (v: Json)
    ensures k in d ==> v == d[k]
    ensures k !in d ==> v == default
  {
    if k in d then d[k] else default
  }

  /**
    Python's `str(v)`. On a string it is the identity; on anything else the
    rendering is CPython's business and is passed in as `render`, which the
    model treats as uninterpreted.
  */
  function PyStr(v: Json, render: Json -> string): (r: string)
    ensures v.JStr? ==> r == v.s
  {
    if v.JStr? then v.s else render(v)
  }

  /** A JSON object built from key/value pairs, as a Python dict literal. */
  function Obj2(k1: string, v1: Json, k2: string, v2: Json): (r: Json)
    requires k1 != k2
    ensures r.JObj? && r.fields.Keys == {k1, k2}
    ensures r.fields[k1] == v1 && r.fields[k2] == v2
  {
    JObj(map[k1 := v1, k2 := v2])
  }
}
