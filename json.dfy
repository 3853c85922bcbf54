/**
 * The loosely typed values that travel through tool arguments, tool results
 * and context snapshots (Python dicts, lists, strings, integers, booleans and None).
 */
module Json {

  datatype Value =
    | Null
    | Bool(b: bool)
    | Int(i: int)
    | Str(s: string)
    | List(items: seq<Value>)
    | Object(fields: map<string, Value>)

  /** Keyword arguments of a tool call. */
  type Args = map<string, Value>

  /** Python's `d.get(key, default)` on a dict. */
  function Get(d: map<string, Value>, key: string, default: Value): Value
  {
    if key in d then d[key] else default
  }
}
