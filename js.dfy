/**
 * The handful of JavaScript values the model needs: what a user script may
 * return, what `JSON.parse` may yield, and the truthiness rules of `Boolean(v)`.
 */
module Js {

  /** A JavaScript value. Numbers are exact reals; `NaN` is kept apart because it is falsy. */
  datatype JsValue =
    | Undefined
    | Null
    | Bool(b: bool)
    | Num(n: real)
    | NaN
    | BigInt(i: int)
    | Str(s: string)
    | Arr(items: seq<JsValue>)
    | Obj(props: map<string, JsValue>)
    | Function

  /** `Boolean(v)`: the falsy values are undefined, null, false, 0, NaN, 0n and "". */
  predicate Truthy(v: JsValue) {
    match v
    case Undefined => false
    case Null => false
    case Bool(b) => b
    case Num(n) => n != 0.0
    case NaN => false
    case BigInt(i) => i != 0
    case Str(s) => |s| > 0
    case Arr(_) => true
    case Obj(_) => true
    case Function => true
  }

  predicate IsNullish(v: JsValue) {
    v.Undefined? || v.Null?
  }

  /**
   * `v?.name`: undefined for a nullish value, the own property of an object,
   * and undefined for any other value (no prototype lookups are modelled).
   */
  function OptionalField(v: JsValue, name: string): (r: JsValue)
    ensures IsNullish(v) ==> r == Undefined
    ensures v.Obj? && name in v.props ==> r == v.props[name]
  {
    match v
    case Obj(props) => if name in props then props[name] else Undefined
    case _ => Undefined
  }

  /**
   * A thrown value as a catch block sees it: `null`, `undefined`, or any
   * other value, reduced to the text of its message.
   */
  datatype Exception = Thrown(message: string) | ThrownNull | ThrownUndefined {
    /** Reading `err.message` in the catch block throws a TypeError of its own. */
    predicate MessageReadThrows() {
      !Thrown?
    }

    /** `err instanceof Error ? err.message : String(err)`, which never throws. */
    function CatchText(): string {
      match this
      case Thrown(m) => m
      case ThrownNull => "null"
      case ThrownUndefined => "undefined"
    }
  }
}
