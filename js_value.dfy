/** Values of a parsed JSON request body as JavaScript sees them: the
    truthiness tests (`!x`, `x || d`) and strict equality (`===`). */
module JsValue {
  import opened Wrappers

  /** A field of a parsed body. `Composite` is an array or object: `text` is
      what `String(value)` gives and `length` its `length` property, if any. */
  datatype Value =
    | Undefined
    | Null
    | Bool(b: bool)
    | Num(n: real)
    | Str(s: string)
    | Composite(text: string, length: Option<nat>)

  /** JavaScript truthiness (JSON cannot produce NaN). */
  predicate Truthy(v: Value) {
    match v
    case Undefined => false
    case Null => false
    case Bool(b) => b
    case Num(n) => n != 0.0
    case Str(s) => s != ""
    case Composite(_, _) => true
  }

  /** `a === b`. Two parsed arrays or objects are distinct references. */
  predicate StrictEquals(a: Value, b: Value) {
    match (a, b)
    case (Undefined, Undefined) => true
    case (Null, Null) => true
    case (Bool(x), Bool(y)) => x == y
    case (Num(x), Num(y)) => x == y
    case (Str(x), Str(y)) => x == y
    case _ => false
  }
}
