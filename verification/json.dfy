/** The JSON-like values the scripts read and write, with the few Python
    built-ins applied to them: truthiness, `dict.get`, `or` and `str()`. */
module JsonValue {
  import opened Text

  /** A value decoded by `json.load`. A float carries the text Python's
      `str()` prints for it; its numeric value plays no part in the scripts. */
  datatype Json =
    | Null
    | Bool(b: bool)
    | Int(i: int)
    | Float(repr: string)
    | Str(s: string)
    | Array(items: seq<Json>)
    | Object(fields: map<string, Json>)

  /** A Python dict with string keys. */
  type Record = map<string, Json>

  /** Python's truth value of `j`. */
  predicate Truthy(j: Json) {
    match j
    case Null => false
    case Bool(b) => b
    case Int(i) => i != 0
    case Float(r) => r != "0.0" && r != "-0.0"
    case Str(s) => |s| > 0
    case Array(xs) => |xs| > 0
    case Object(m) => |m| > 0
  }

  /** `d.get(key)`. */
  function Get(d: Record, key: string): Json {
    if key in d then d[key] else Null
  }

  /** `d.get(key, default)`. */
  function GetOr(d: Record, key: string, default: Json): Json {
    if key in d then d[key] else default
  }

  /** `a or b`. */
  function Or(a: Json, b: Json): Json {
    if Truthy(a) then a else b
  }

  /** bool, int, float or str. */
  predicate IsPrimitive(j: Json) {
    j.Bool? || j.Int? || j.Float? || j.Str?
  }

  /** Lists and dicts cannot be dict keys or set members. */
  predicate Hashable(j: Json) {
    !j.Array? && !j.Object?
  }

  /** `str(j)`. Lists and dicts are printed by `reprOf`, which stands for
      Python's own formatting of containers. */
  function PyStr(j: Json, reprOf: Json -> string): string {
    match j
    case Null => "None"
    case Bool(b) => if b then "True" else "False"
    case Int(i) => IntToString(i)
    case Float(r) => r
    case Str(s) => s
    case _ => reprOf(j)
  }
}
