/** `runScript` of services/CustomScriptExecutor.ts: one call of a compiled function inside try/catch. */
module ScriptExecutor {
  import opened Wrappers
  import opened Js
  import opened Types
  import opened ScriptTypes
  import ScriptCompiler
  import LoopSafety

  /** What a call of the compiled function does: return an input state or throw. */
  datatype Outcome = Returns(action: InputState) | Throws(error: Exception)

  type CompiledFn = (Snapshot, Snapshot) -> Outcome

  datatype CustomScriptResult = CustomScriptResult(success: bool, error: Option<string>, action: Option<InputState>)

  /**
   * `runScript(compiledDecideFunction, selfFighter, opponentFighter)`. None
   * when `runScript` itself throws: the call threw null or undefined, and
   * reading `message` of it in the catch block throws a TypeError to the caller.
   */
  function RunScript(compiled: CompiledFn, self: Snapshot, opponent: Snapshot): (r: Option<CustomScriptResult>)
    ensures r.None? <==> compiled(self, opponent).Throws? && compiled(self, opponent).error.MessageReadThrows()
    ensures r.Some? ==> (r.value.success <==> compiled(self, opponent).Returns?)
    ensures r.Some? ==> r.value.action.Some?
    ensures compiled(self, opponent).Returns? ==>
              r == Some(CustomScriptResult(true, None, Some(compiled(self, opponent).action)))
    ensures compiled(self, opponent).Throws? && compiled(self, opponent).error.Thrown? ==>
              r == Some(CustomScriptResult(false, Some(compiled(self, opponent).error.message), Some(NEUTRAL)))
  {
    match compiled(self, opponent)
    case Returns(action) => Some(CustomScriptResult(true, None, Some(action)))
    case Throws(e) =>
      if e.MessageReadThrows() then None
      else Some(CustomScriptResult(false, Some(e.message), Some(NEUTRAL)))
  }

  /** A function produced by `compileScript`, which never throws. */
  function AsCompiledFn(f: ScriptCompiler.SafeDecideFn): CompiledFn {
    (self, opponent) => Returns(f(self, opponent))
  }

  /**
   * Running what `compileScript` produced always succeeds, and the action is
   * the sanitized decision of the user's `decide` (all false if it threw).
   */
  lemma RunCompiledScriptSucceeds(userCode: string, parse: string -> Option<LoopSafety.Node>,
                                  evaluate: string -> EvalOutcome, self: Snapshot, opponent: Snapshot)
    requires ScriptCompiler.CompileScript(userCode, parse, evaluate).compiledDecideFunction.Some?
    ensures var f := ScriptCompiler.CompileScript(userCode, parse, evaluate).compiledDecideFunction.value;
            RunScript(AsCompiledFn(f), self, opponent)
            == Some(CustomScriptResult(true, None, Some(ScriptCompiler.SafeDecide(evaluate(userCode).decide, self, opponent))))
  {
  }
}
