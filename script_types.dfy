/**
 * The script contract shared by the compiler, the worker, the executor and
 * the worker manager (the type definitions of services/CustomScriptRunner.ts).
 *
 * `new Function(code)()` is an oracle: its outcome on a source text is an
 * `EvalOutcome`. A user `decide` function is a mathematical function from the
 * two fighter snapshots to a `CallOutcome`.
 */
module ScriptTypes {
  import opened Js
  import opened Types

  /** The read-only copy of a fighter handed to a script (`FighterState`). */
  datatype Snapshot = Snapshot(
    x: real, y: real, vx: real, vy: real,
    health: real, energy: real,
    state: int, direction: int, cooldown: int,
    width: real, height: real)

  /** What a call of user code does: return a value or throw. */
  datatype CallOutcome = Returned(value: JsValue) | Raised(error: Exception)

  /** The user's `decide(self, opponent)`. */
  type DecideFn = (Snapshot, Snapshot) -> CallOutcome

  /**
   * Evaluating `code` followed by `return typeof decide === 'function' ? decide : null`:
   * it throws (a syntax error or an exception in top-level code), yields null,
   * or yields the `decide` function.
   */
  datatype EvalOutcome = EvalThrows(error: Exception) | NoDecide | DecideFound(decide: DecideFn)

  const MISSING_DECIDE_MESSAGE: string :=
    "No \"decide\" function found. Make sure you define: function decide(self, opponent) { ... }"

  const SYNTAX_ERROR_PREFIX: string := "Syntax Error: "

  /** `{ left: Boolean(result?.left), ..., action3: Boolean(result?.action3) }`. */
  function Sanitize(result: JsValue): InputState {
    InputState(
      Truthy(OptionalField(result, "left")),
      Truthy(OptionalField(result, "right")),
      Truthy(OptionalField(result, "up")),
      Truthy(OptionalField(result, "down")),
      Truthy(OptionalField(result, "action1")),
      Truthy(OptionalField(result, "action2")),
      Truthy(OptionalField(result, "action3")))
  }

  /** An input state as the plain object a script would return. */
  function InputToJs(i: InputState): JsValue {
    Obj(map[
      "left" := Bool(i.left), "right" := Bool(i.right), "up" := Bool(i.up), "down" := Bool(i.down),
      "action1" := Bool(i.action1), "action2" := Bool(i.action2), "action3" := Bool(i.action3)])
  }

  /** A null or undefined result sanitizes to the all-false input. */
  lemma SanitizeNullish(result: JsValue)
    requires IsNullish(result)
    ensures Sanitize(result) == NEUTRAL
  {
  }

  /** Each sanitized field is the truthiness of the same-named property of the result. */
  lemma SanitizeReadsFields(props: map<string, JsValue>)
    ensures Sanitize(Obj(props)).left == ("left" in props && Truthy(props["left"]))
    ensures Sanitize(Obj(props)).right == ("right" in props && Truthy(props["right"]))
    ensures Sanitize(Obj(props)).up == ("up" in props && Truthy(props["up"]))
    ensures Sanitize(Obj(props)).down == ("down" in props && Truthy(props["down"]))
    ensures Sanitize(Obj(props)).action1 == ("action1" in props && Truthy(props["action1"]))
    ensures Sanitize(Obj(props)).action2 == ("action2" in props && Truthy(props["action2"]))
    ensures Sanitize(Obj(props)).action3 == ("action3" in props && Truthy(props["action3"]))
  {
  }

  /** A script that already returns a well-formed input gets exactly that input back. */
  lemma SanitizeKeepsInputs(i: InputState)
    ensures Sanitize(InputToJs(i)) == i
  {
  }

  /** A primitive result (a number, a string, a boolean) carries no fields: all false. */
  lemma SanitizePrimitive(result: JsValue)
    requires result.Num? || result.Str? || result.Bool? || result.BigInt?
    ensures Sanitize(result) == NEUTRAL
  {
  }
}
