/**
 * A JSON-like value, as json.load returns it, with the bits of Python
 * semantics the validators rely on: truthiness, dict.get, and the `in`
 * operator (which raises TypeError on values that are not containers).
 */
module Json {
  import opened Wrappers
  import opened Strings

  datatype Json =
    | JNull
    | JBool(b: bool)
    | JNum(n: real)
    | JStr(s: string)
    | JArr(items: seq<Json>)
    | JObj(fields: map<string, Json>)

  /** The Python exceptions the modelled code can raise. */
  datatype PyError = ValueError(msg: string) | TypeError | AttributeError

  /** bool(v) in Python. */
  predicate Truthy(v: Json) {
    match v
    case JNull => false
    case JBool(b) => b
    case JNum(n) => n != 0.0
    case JStr(s) => s != ""
    case JArr(xs) => xs != []
    case JObj(m) => m != map[]
  }

  /** d.get(key) for a dict d; None also when the key is absent. */
  function Get(d: map<string, Json>, key: string): (r: Option<Json>)
    ensures r.Some? <==> key in d
    ensures r.Some? ==> r.value == d[key]
  {
    if key in d then Some(d[key]) else None
  }

  /** `key in c` for a string key: dict keys, list elements, substrings; TypeError otherwise. */
  function PyIn(key: string, c: Json): (r: Result<bool, PyError>)
    ensures r.Failure? <==> !(c.JObj? || c.JArr? || c.JStr?)
    ensures c.JObj? ==> r == Success(key in c.fields)
  {
    match c
    case JObj(m) => Success(key in m)
    case JArr(xs) => Success(JStr(key) in xs)
    case JStr(s) => Success(Contains(s, key))
    case _ => Failure(TypeError)
  }

  /** `key in c` evaluates to True without raising. */
  predicate Has(key: string, c: Json) {
    PyIn(key, c) == Success(true)
  }
}
