/** The dynamically typed Python values the decorators and guards inspect. */
module Values {

  datatype Value =
    | NoneValue
    | Bool(b: bool)
    | Int(i: int)
    | Float(r: real)
    | Str(s: string)
    | Dictionary(items: map<string, Value>)

  /** Python truthiness: `None`, `False`, zero, the empty string and the empty dictionary are false. */
  predicate Truthy(v: Value) {
    match v
    case NoneValue => false
    case Bool(b) => b
    case Int(i) => i != 0
    case Float(r) => r != 0.0
    case Str(s) => |s| > 0
    case Dictionary(items) => |items| > 0
  }

  /** `d.get(key, default)` on a dictionary with string keys. */
  function Get(d: map<string, Value>, key: string, default: Value): (r: Value)
    ensures key in d ==> r == d[key]
    ensures key !in d ==> r == default
  {
    if key in d then d[key] else default
  }

  /** `isinstance(v, (int, float)) and v < 0`; a bool is an int but never negative. */
  predicate IsNegativeNumber(v: Value) {
    (v.Int? && v.i < 0) || (v.Float? && v.r < 0.0)
  }
}
