/**
 * Parsed JSON values as the Python program sees them after `resp.json()`,
 * together with the few Python operations the program applies to them:
 * truthiness, `a or b`, `dict.get` and attribute lookup on a non-dict.
 */
module Json {
  import opened Wrappers

  /** `JNull` is both JSON `null` and Python's `None`. */
  datatype Json =
    | JNull
    | JBool(b: bool)
    | JNum(n: real)
    | JStr(s: string)
    | JList(items: seq<Json>)
    | JObj(fields: map<string, Json>)

  const EmptyObj: Json := JObj(map[])
  const EmptyList: Json := JList([])
  /** The placeholder the console output uses for a missing value. */
  const NA: Json := JStr("N/A")

  /** Python truthiness: `None`, `False`, zero, and empty strings, lists and dicts are false. */
  predicate Truthy(j: Json) {
    match j
    case JNull => false
    case JBool(b) => b
    case JNum(n) => n != 0.0
    case JStr(s) => s != ""
    case JList(items) => items != []
    case JObj(fields) => fields != map[]
  }

  /** Python `a or b`. */
  function Or(a: Json, b: Json): Json {
    if Truthy(a) then a else b
  }

  /** Python `d.get(key, default)` on a dict. */
  function GetOr(d: map<string, Json>, key: string, default: Json): Json {
    if key in d then d[key] else default
  }

  /** Python `d.get(key)` on a dict. */
  function Get(d: map<string, Json>, key: string): Json {
    GetOr(d, key, JNull)
  }

  /** The exceptions Python raises when a shape is not what the code expects. */
  datatype PyError =
    | AttributeError  // `.get` on a value that is not a dict
    | TypeError       // iterating a value that is not iterable

  /** Python `x.get(key)` for a value `x` of any type. */
  function Attr(x: Json, key: string): Result<Json, PyError> {
    if x.JObj? then Success(Get(x.fields, key)) else Failure(AttributeError)
  }
}
