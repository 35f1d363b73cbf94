/**
 * Decoded YAML/JSON documents, as the Python code sees them after `yaml.safe_load_all`
 * or `obj.to_dict()`: a value is null, a boolean, an integer, a string, a list or a dict.
 * Floating-point scalars are not part of this model.
 */
module Json {

  datatype Value =
    | Null
    | Bool(b: bool)
    | Int(i: int)
    | Str(s: string)
    | List(items: seq<Value>)
    | Object(fields: map<string, Value>)

  /** A Python dict with string keys. */
  type Dict = map<string, Value>

  /** `d.get(key)`: the value stored under `key`, or None when the key is missing. */
  function Get(d: Dict, key: string): Value {
    if key in d then d[key] else Null
  }

  /** `d.get(key, default)`. */
  function GetOr(d: Dict, key: string, default: Value): Value {
    if key in d then d[key] else default
  }

  /** Python truthiness: None, False, 0, '', [] and {} are false, everything else is true. */
  predicate Truthy(v: Value) {
    match v
    case Null => false
    case Bool(b) => b
    case Int(i) => i != 0
    case Str(s) => s != ""
    case List(items) => |items| > 0
    case Object(fields) => |fields| > 0
  }

  /** Python's `a or b`: `a` when it is truthy, otherwise `b`. */
  function Or(a: Value, b: Value): Value {
    if Truthy(a) then a else b
  }
}
