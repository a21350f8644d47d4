/**
 * utils/assert.ts: fail-fast checks. A check either passes or throws an
 * `InvariantError`; the throw is the `Fail` outcome. The logging side effect
 * is not modelled; number formatting and `JSON.stringify` are parameters.
 */
module AssertUtils {
  import opened Js

  const INVARIANT_PREFIX: string := "Invariant Violation: "
  const INVARIANT_ERROR_NAME: string := "InvariantError"

  /** An `Error` subclass instance: its message and its name. */
  datatype InvariantError = InvariantError(message: string, name: string)

  /** `new InvariantError(message)`. */
  function NewInvariantError(message: string): (e: InvariantError)
    ensures e.message == INVARIANT_PREFIX + message
    ensures e.name == INVARIANT_ERROR_NAME
    ensures e.message[..|INVARIANT_PREFIX|] == INVARIANT_PREFIX
  {
    InvariantError(INVARIANT_PREFIX + message, INVARIANT_ERROR_NAME)
  }

  datatype Outcome = Pass | Fail(error: InvariantError)

  /** `assert(condition, message)`: throws iff the condition is falsy. */
  function Assert(condition: JsValue, message: string): (r: Outcome)
    ensures r.Pass? <==> Truthy(condition)
    ensures r.Fail? ==> r.error == NewInvariantError(message)
  {
    if !Truthy(condition) then Fail(NewInvariantError(message)) else Pass
  }

  /** `assertDefined(value, name)`: throws iff the value is null or undefined. */
  function AssertDefined(value: JsValue, name: string): (r: Outcome)
    ensures r.Pass? <==> !IsNullish(value)
    ensures r.Fail? ==> r.error.message == INVARIANT_PREFIX + name + " must be defined"
  {
    Assert(Bool(!value.Null? && !value.Undefined?), name + " must be defined")
  }

  /** `assertNonEmptyString(value, name)`: passes iff the value is a string of positive length. */
  function AssertNonEmptyString(value: JsValue, name: string): (r: Outcome)
    ensures r.Pass? <==> value.Str? && |value.s| > 0
    ensures r.Fail? ==> r.error.message == INVARIANT_PREFIX + name + " must be a non-empty string"
  {
    Assert(Bool(value.Str? && |value.s| > 0), name + " must be a non-empty string")
  }

  /** `assertInRange(value, min, max, name)`: passes iff min <= value <= max; `show` formats a number. */
  function AssertInRange(value: real, min: real, max: real, name: string, show: real -> string): (r: Outcome)
    ensures r.Pass? <==> min <= value <= max
    ensures r.Fail? ==>
              r.error.message == INVARIANT_PREFIX + name + " must be between " + show(min) + " and " + show(max) + ", got " + show(value)
  {
    Assert(Bool(value >= min && value <= max),
           name + " must be between " + show(min) + " and " + show(max) + ", got " + show(value))
  }

  /** `assertNever(value)`: always throws; `stringify` stands for `JSON.stringify`. */
  function AssertNever(value: JsValue, stringify: JsValue -> string): (r: Outcome)
    ensures r.Fail?
    ensures r.error.message == INVARIANT_PREFIX + "Unexpected value: " + stringify(value)
  {
    Fail(NewInvariantError("Unexpected value: " + stringify(value)))
  }
}
