/**
 * The slice of JavaScript's value semantics that the catalog code relies on:
 * truthiness, `a || b`, destructuring defaults and the result of `parseInt`.
 */
module Js {
  /**
   * A JavaScript value as the catalog code sees it. Numbers are reals, with NaN
   * kept apart; an object or array nested inside a value is opaque (`Object`).
   */
  datatype JsValue = Undefined | Null | Bool(b: bool) | Num(x: real) | NaN | Str(s: string) | Object

  /** JavaScript's ToBoolean: undefined, null, false, 0, NaN and "" are falsy. */
  predicate Truthy(v: JsValue) {
    match v
    case Undefined => false
    case Null => false
    case NaN => false
    case Bool(b) => b
    case Num(x) => x != 0.0
    case Str(s) => s != ""
    case Object => true
  }

  /** `a || b`. */
  function Or(a: JsValue, b: JsValue): JsValue {
    if Truthy(a) then a else b
  }

  /** A destructuring default `{ x = d } = obj`: it applies only when the property is undefined. */
  function Default(v: JsValue, d: JsValue): JsValue {
    if v.Undefined? then d else v
  }

  /** `v != null` (loose inequality: both null and undefined compare equal to null). */
  predicate NotNullish(v: JsValue) {
    !v.Null? && !v.Undefined?
  }

  /** What `parseInt` returns: an integer or NaN. */
  datatype ParsedInt = Whole(v: int) | NotANumber
}
