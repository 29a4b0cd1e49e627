/** Decoded JSON values and the parts of Python's object protocol that the
    modelled code applies to them (truthiness, `in`, `dict.get`). */
module JsonValue {
  import opened Wrappers
  import Strings

  /** A value produced by `json.loads`; objects have string keys. Floats are not modelled. */
  datatype Json =
    | JNull
    | JBool(b: bool)
    | JInt(n: int)
    | JStr(s: string)
    | JArr(items: seq<Json>)
    | JObj(fields: map<string, Json>)

  /** Python truthiness: `None`, `False`, `0` and empty containers are false. */
  predicate Truthy(j: Json)
  {
    match j
    case JNull => false
    case JBool(b) => b
    case JInt(n) => n != 0
    case JStr(s) => |s| > 0
    case JArr(items) => |items| > 0
    case JObj(fields) => |fields| > 0
  }

  /** Python's `key in container` for a string `key`: key membership on a dict,
      element membership on a list, substring test on a str; `None` stands for
      the `TypeError` raised on every other value. */
  function In(key: string, container: Json): (r: Option<bool>)
    ensures r.None? <==> !(container.JObj? || container.JArr? || container.JStr?)
    ensures container.JObj? ==> r == Some(key in container.fields)
  {
    match container
    case JObj(fields) => Some(key in fields)
    case JArr(items) => Some(JStr(key) in items)
    case JStr(s) => Some(Strings.Contains(s, key))
    case _ => None
  }

  /** Python's `fields.get(key, default)`. */
  function Get(fields: map<string, Json>, key: string, default: Json): Json
  {
    if key in fields then fields[key] else default
  }
}
