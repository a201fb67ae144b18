/**
 * Parsed YAML documents as the command-line modules see them after
 * `yaml.safe_load_all`, and the Python truthiness of such values.
 * Mappings are keyed by strings; key order and the text form are not modelled.
 */
module Yaml {
  import opened Wrappers

  datatype Value =
    | Null
    | Bool(b: bool)
    | Int(i: int)
    | Str(s: string)
    | List(items: seq<Value>)
    | Dict(fields: map<string, Value>)

  /** Python's `bool(v)`: None, False, 0 and empty strings, lists and mappings are false. */
  predicate Truthy(v: Value)
  {
    match v
    case Null => false
    case Bool(b) => b
    case Int(i) => i != 0
    case Str(s) => s != ""
    case List(items) => items != []
    case Dict(fields) => fields != map[]
  }

  /** `d.get(key, default)` on a mapping. */
  function Get(d: map<string, Value>, key: string, default: Value): Value
  {
    if key in d then d[key] else default
  }

  /** The value at a path of mapping keys, e.g. `["metadata", "name"]`. */
  function Lookup(v: Value, path: seq<string>): (r: Option<Value>)
    ensures path == [] ==> r == Some(v)
  {
    if path == [] then Some(v)
    else match v
      case Dict(fields) => if path[0] in fields then Lookup(fields[path[0]], path[1..]) else None
      case _ => None
  }
}
