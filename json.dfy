/** JSON values as the bridge sees them after `json.loads`, with Python's truthiness. */
module Json {
  import opened Wrappers
  import opened PyStr

  datatype Json =
    | JNull
    | JBool(b: bool)
    | JInt(i: int)
    | JStr(s: string)
    | JArr(items: seq<Json>)
    | JObj(fields: map<string, Json>)

  /** `key in obj` for a dict; false for every other value. */
  predicate Has(j: Json, key: string)
  {
    j.JObj? && key in j.fields
  }

  /** `obj.get(key)`: None when the value is not a dict or has no such key. */
  function Get(j: Json, key: string): (r: Option<Json>)
    ensures r.Some? <==> Has(j, key)
  {
    if Has(j, key) then Some(j.fields[key]) else None
  }

  /** `obj.get(key, default)`. */
  function GetOr(j: Json, key: string, default: Json): (r: Json)
    ensures Has(j, key) ==> r == j.fields[key]
    ensures !Has(j, key) ==> r == default
  {
    if Has(j, key) then j.fields[key] else default
  }

  /** Python truthiness: None, False, 0, "", [] and {} are false. */
  predicate Truthy(j: Json)
  {
    match j
    case JNull => false
    case JBool(b) => b
    case JInt(i) => i != 0
    case JStr(s) => s != ""
    case JArr(items) => items != []
    case JObj(fields) => fields != map[]
  }

  /**
   * `str(v)` for the scalar values a JSON-RPC id can take. Lists and dicts,
   * whose `str` starts with a bracket and so never equals a decimal id, give None.
   */
  function IdText(j: Json): (r: Option<string>)
    ensures j.JStr? ==> r == Some(j.s)
    ensures j.JInt? ==> r == Some(IntToString(j.i))
  {
    match j
    case JNull => Some("None")
    case JBool(b) => Some(if b then "True" else "False")
    case JInt(i) => Some(IntToString(i))
    case JStr(s) => Some(s)
    case _ => None
  }
}
