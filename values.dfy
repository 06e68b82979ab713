/** The values that flow through the task store and the HTTP handlers:
    JSON-shaped Python values, with Python's truthiness, `or` and `dict.get`. */
module Values {

  datatype Option<+T> = None | Some(value: T)

  datatype Result<+T, +E> = Success(value: T) | Failure(error: E)

  /** A call that either returns a value or raises an exception; `msg` is `str(exc)`. */
  datatype Outcome<+T> = Ok(value: T) | Fail(msg: string)

  /** A Python value as decoded from or encoded to JSON. Numbers are integers. */
  datatype Json =
    | JNull
    | JBool(b: bool)
    | JNum(n: int)
    | JStr(s: string)
    | JList(items: seq<Json>)
    | JDict(entries: map<string, Json>)

  /** A task record, or any other dictionary with string keys. */
  type Record = map<string, Json>

  /** Python's `bool(v)`. */
  predicate Truthy(v: Json)
  {
    match v
    case JNull => false
    case JBool(b) => b
    case JNum(n) => n != 0
    case JStr(s) => s != ""
    case JList(items) => items != []
    case JDict(entries) => entries != map[]
  }

  /** Python's `a or b`: `a` when it is truthy, otherwise `b`. */
  function Or(a: Json, b: Json): Json
  {
    if Truthy(a) then a else b
  }

  /** Python's `d.get(key)`: `None` for a missing key. */
  function Get(d: Record, key: string): Json
  {
    if key in d then d[key] else JNull
  }
}
