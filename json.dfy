/** JSON documents as the scripts see them after `json.load`, and the handful
    of Python operations they apply to them (`.get`, `in`, `[]`, truth tests,
    iteration), with the exceptions those operations raise. Numbers are
    integers only. */
module Json {
  import opened Wrappers
  import Text

  datatype Json =
    | JNull
    | JBool(b: bool)
    | JNum(n: int)
    | JStr(s: string)
    | JArr(items: seq<Json>)
    | JObj(fields: map<string, Json>)

  /** What `json.load` makes of a file or a response body. */
  datatype Doc = Parsed(value: Json) | Unparsable

  /** Why a run of modelled Python code ends without a value.
      Raised: Python raises an exception that nothing catches.
      OutsideModel: Python would iterate over a non-empty dict or format a
      non-string value, which depends on key order or on `str()` and is not
      modelled. */
  datatype Failure = Raised | OutsideModel

  datatype Result<+T> = Ok(value: T) | Err(failure: Failure)

  /** Python's truth value of a JSON value. */
  predicate Truthy(j: Json) {
    match j
    case JNull => false
    case JBool(b) => b
    case JNum(n) => n != 0
    case JStr(s) => s != []
    case JArr(items) => items != []
    case JObj(fields) => fields != map[]
  }

  /** `j.get(key, default)`; None when `j` is not a dict (AttributeError). */
  function Get(j: Json, key: string, default: Json): Option<Json> {
    match j
    case JObj(f) => Some(if key in f then f[key] else default)
    case _ => None
  }

  /** `j.get(key)`, where an absent key gives None (JSON null). */
  function Field(j: Json, key: string): Option<Json> {
    Get(j, key, JNull)
  }

  /** `key in j` for a string key; None when `j` does not support `in`
      (TypeError). A list holds the key when it holds that string, a string
      when it has the key as a substring. */
  function Contains(j: Json, key: string): Option<bool> {
    match j
    case JObj(f) => Some(key in f)
    case JArr(items) => Some(JStr(key) in items)
    case JStr(s) => Some(Text.HasSubstring(s, key))
    case _ => None
  }

  /** `j[key]` for a string key; None on KeyError or TypeError. */
  function Subscript(j: Json, key: string): Option<Json> {
    match j
    case JObj(f) => if key in f then Some(f[key]) else None
    case _ => None
  }

  /** The value of `j` in an integer comparison (`bool` is an `int` in
      Python); None when the comparison raises TypeError. */
  function AsInt(j: Json): Option<int> {
    match j
    case JNum(n) => Some(n)
    case JBool(b) => Some(if b then 1 else 0)
    case _ => None
  }

  /** The elements `for x in j` (or `list.extend(j)`) goes through. */
  function Iterate(j: Json): Result<seq<Json>> {
    match j
    case JArr(items) => Ok(items)
    case JStr(s) => Ok(seq(|s|, i requires 0 <= i < |s| => JStr([s[i]])))
    case JObj(f) => if f == map[] then Ok([]) else Err(OutsideModel)
    case _ => Err(Raised)
  }
}
