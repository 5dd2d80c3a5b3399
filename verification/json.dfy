/** Parsed structured output. The structured-output parser turns the
    model's text into a JSON object. JSON numbers with a fraction or an
    exponent become Python floats; they are modelled as exact reals.
 */
module Json {

  datatype Value =
    | Null
    | Bool(b: bool)
    | Int(i: int)
    | Real(x: real)
    | Str(s: string)
    | Arr(items: seq<Value>)
    | Obj(fields: map<string, Value>)

  /** A parsed JSON object, as the Python `dict` the parser returns. */
  type Record = map<string, Value>

  /** Python truthiness of a parsed value: `None`, `False`, `0`, `0.0`, `""`,
      `[]` and `{}` are false, everything else is true. */
  predicate Truthy(v: Value) {
    match v
    case Null => false
    case Bool(b) => b
    case Int(i) => i != 0
    case Real(x) => x != 0.0
    case Str(s) => |s| > 0
    case Arr(items) => |items| > 0
    case Obj(fields) => |fields| > 0
  }

  /** `record.get(key, default)`. */
  function Get(record: Record, key: string, default: Value): (v: Value)
    ensures key in record ==> v == record[key]
    ensures key !in record ==> v == default
  {
    if key in record then record[key] else default
  }
}
