/** Values that arrive in a parsed JSON request body, and the JavaScript tests the handlers apply to them. */
module JsValues {

  datatype Option<+T> = None | Some(value: T)

  /**
   * A primitive JSON value as a handler reads it from `req.body`; `Undefined` is a field the body
   * does not have. JSON numbers are reals: a JSON text has no NaN, and -0 equals 0. A literal too large
   * for a double, which `JSON.parse` reads as Infinity, is not a value of this type.
   * Two values are `===` (and equal for `Set.has` and `Array.includes`) exactly when they are equal here.
   */
  datatype JsValue = Undefined | Null | Bool(b: bool) | Num(x: real) | Str(s: string)

  /** The values `!v` is true of: undefined, null, false, 0 and the empty string. */
  const Falsy: set<JsValue> := {Undefined, Null, Bool(false), Num(0.0), Str("")}

  /** JavaScript truthiness: `v` is truthy when `!v` is false. */
  predicate Truthy(v: JsValue)
    ensures Truthy(v) <==> v !in Falsy
  {
    match v
    case Undefined => false
    case Null => false
    case Bool(b) => b
    case Num(x) => x != 0.0
    case Str(s) => s != ""
  }
}
