/** Values produced by Python's `json.loads`. The decoder itself is not part of
    this model: it is passed around as a function from text to `Parsed`. */
module JsonValue {

  datatype Json =
    | Null
    | Bool(b: bool)
    | Number(x: real)
    | Str(s: string)
    | Array(items: seq<Json>)
    | Object(fields: map<string, Json>)

  /** Python truthiness of a decoded value (`bool(v)`): the falsy values are
      `None`, `False`, zero and the empty text, list and mapping. */
  predicate Truthy(v: Json)
    ensures !Truthy(v) <==>
      v == Null || v == Bool(false) || v == Number(0.0) || v == Str("") || v == Array([]) || v == Object(map[])
  {
    match v
    case Null => false
    case Bool(b) => b
    case Number(x) => x != 0.0
    case Str(s) => s != ""
    case Array(items) => items != []
    case Object(fields) => fields != map[]
  }

  /** `d.get(key, default)` on a decoded object. */
  function Get(fields: map<string, Json>, key: string, default: Json): (r: Json)
    ensures key in fields ==> r == fields[key]
    ensures key !in fields ==> r == default
  {
    if key in fields then fields[key] else default
  }

  /** The outcome of `json.loads(text)`: a value, or the message of the
      `JSONDecodeError` it raises. */
  datatype Parsed = Parsed(value: Json) | Malformed(message: string)

  const EmptyObject: Json := Object(map[])
}
