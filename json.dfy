/**
 * Decoded JSON values, as Python's `json` module returns them: `null` is
 * Python's `None`, objects are dicts and arrays are lists. The bridge reads
 * them with dict lookups, `.get` with defaults and truth tests; those are
 * modelled here with Python's meaning.
 */
module Json {
  import Text

  datatype Json =
    | Null
    | Bool(b: bool)
    | Int(i: int)
    | Float(r: real)
    | Str(s: string)
    | Arr(elems: seq<Json>)
    | Obj(fields: map<string, Json>)

  /** Python's truth value of `j` (`if j:`). */
  predicate Truthy(j: Json) {
    match j
    case Null => false
    case Bool(b) => b
    case Int(i) => i != 0
    case Float(r) => r != 0.0
    case Str(s) => s != ""
    case Arr(a) => a != []
    case Obj(m) => m != map[]
  }

  /** `j.get(key, default)` on a value known to be a dict. */
  function Field(j: Json, key: string, default: Json): Json
    requires j.Obj?
  {
    if key in j.fields then j.fields[key] else default
  }

  /** Python's `str(j)` as an f-string uses it; see README for what is not modelled. */
  function Show(j: Json): string {
    match j
    case Null => "None"
    case Bool(b) => if b then "True" else "False"
    case Int(i) => Text.Decimal(i)
    case Str(s) => s
    case _ => ""
  }
}
