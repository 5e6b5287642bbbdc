/**
 * JSON values as Python's `json` module hands them to the core, together with the
 * few dynamic-typing rules the core leans on: truthiness, `or`, `dict.get`, `str()`
 * and `float()`.
 */
module PyJson {
  import opened Wrappers

  /** A decoded JSON value. Numbers are reals (NaN and infinities are not modelled);
      objects are maps, so the insertion order of a Python dict is not modelled. */
  datatype Json =
    | JNull
    | JBool(b: bool)
    | JNum(n: real)
    | JStr(s: string)
    | JArr(items: seq<Json>)
    | JObj(fields: map<string, Json>)

  /** The exceptions Python raises when a value does not have the shape the code expects. */
  datatype PyError = AttributeError | TypeError | KeyError | ValueError

  /** Python truthiness of a decoded JSON value. */
  predicate Truthy(v: Json)
  {
    match v
    case JNull => false
    case JBool(b) => b
    case JNum(n) => n != 0.0
    case JStr(s) => s != []
    case JArr(a) => a != []
    case JObj(m) => m != map[]
  }

  /** Python's `a or b`: the first operand when it is truthy, otherwise the second. */
  function Or(a: Json, b: Json): Json
  {
    if Truthy(a) then a else b
  }

  /** `d.get(k, default)`; `d.get(k)` is `Get(d, k, JNull)`. */
  function Get(d: map<string, Json>, k: string, default: Json): Json
  {
    if k in d then d[k] else default
  }

  /** How Python's `str()` renders a non-string value; the model does not fix it. */
  type Repr = Json -> string

  /** `str(v)`: a string is itself, anything else is rendered by `repr`. */
  function Str(v: Json, repr: Repr): string
  {
    if v.JStr? then v.s else repr(v)
  }

  /** `float(v)`, with `None` for the `TypeError`/`ValueError` it raises. A bool is 1.0
      or 0.0; a string is handed to `parseFloat`, which the model does not fix. */
  function Float(v: Json, parseFloat: string -> Option<real>): Option<real>
  {
    match v
    case JNum(n) => Some(n)
    case JBool(b) => Some(if b then 1.0 else 0.0)
    case JStr(s) => parseFloat(s)
    case _ => None
  }
}
