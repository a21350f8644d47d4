/**
 * `compileScript` of services/CustomScriptCompiler.ts: the loop analysis, then
 * evaluation of the source, then the containment wrapper around `decide`.
 *
 * acorn's parse of the source and the evaluation of the source are oracles
 * (`parse`, `evaluate`); the analyzer is used through its specification
 * function `LoopSafety.Analysis`, which `LoopSafety.AnalyzeLoopSafety` is
 * proved to compute.
 */
module ScriptCompiler {
  import opened Wrappers
  import opened Js
  import opened Types
  import opened ScriptTypes
  import LoopSafety

  /** The compiled, sanitising decide function. */
  type SafeDecideFn = (Snapshot, Snapshot) -> InputState

  datatype CompileResult = CompileResult(compiledDecideFunction: Option<SafeDecideFn>, error: Option<string>)

  const DANGEROUS_LOOP_FALLBACK: string := "Dangerous loop detected"

  /**
   * `safeDecideFunction`: calls the user's `decide` inside a try/catch; a
   * returned value is sanitized to seven booleans, an exception yields the
   * all-false input.
   */
  function SafeDecide(user: DecideFn, self: Snapshot, opponent: Snapshot): (r: InputState)
    ensures user(self, opponent).Raised? ==> r == NEUTRAL
    ensures user(self, opponent).Returned? && IsNullish(user(self, opponent).value) ==> r == NEUTRAL
    ensures user(self, opponent).Returned? ==> r == Sanitize(user(self, opponent).value)
  {
    match user(self, opponent)
    case Returned(v) => Sanitize(v)
    case Raised(_) => NEUTRAL
  }

  /** `loopSafety.error || 'Dangerous loop detected'`. */
  function AnalyzerMessage(error: Option<string>): string {
    match error
    case Some(e) => if |e| > 0 then e else DANGEROUS_LOOP_FALLBACK
    case None => DANGEROUS_LOOP_FALLBACK
  }

  /** `compileScript(userCode)`. */
  function CompileScript(userCode: string, parse: string -> Option<LoopSafety.Node>, evaluate: string -> EvalOutcome): (r: CompileResult)
    ensures r.compiledDecideFunction.Some? <==> r.error.None?
    ensures !LoopSafety.Analysis(parse(userCode)).safe ==>
              r == CompileResult(None, Some(AnalyzerMessage(LoopSafety.Analysis(parse(userCode)).error)))
    ensures LoopSafety.Analysis(parse(userCode)).safe && evaluate(userCode).EvalThrows? ==>
              r == CompileResult(None, Some(SYNTAX_ERROR_PREFIX + evaluate(userCode).error.CatchText()))
    ensures LoopSafety.Analysis(parse(userCode)).safe && evaluate(userCode).NoDecide? ==>
              r == CompileResult(None, Some(MISSING_DECIDE_MESSAGE))
    ensures r.compiledDecideFunction.Some? ==>
              LoopSafety.Analysis(parse(userCode)).safe && evaluate(userCode).DecideFound? &&
              forall self, opponent :: r.compiledDecideFunction.value(self, opponent)
                                       == SafeDecide(evaluate(userCode).decide, self, opponent)
  {
    var loopSafety := LoopSafety.Analysis(parse(userCode));
    if !loopSafety.safe then
      CompileResult(None, Some(AnalyzerMessage(loopSafety.error)))
    else
      match evaluate(userCode)
      case EvalThrows(e) => CompileResult(None, Some(SYNTAX_ERROR_PREFIX + e.CatchText()))
      case NoDecide => CompileResult(None, Some(MISSING_DECIDE_MESSAGE))
      case DecideFound(userDecide) =>
        CompileResult(Some((self, opponent) => SafeDecide(userDecide, self, opponent)), None)
  }

  /**
   * An unsafe script is never evaluated: its result does not depend on what
   * evaluating it would do.
   */
  lemma UnsafeSourceIsNotEvaluated(userCode: string, parse: string -> Option<LoopSafety.Node>,
                                   evaluate1: string -> EvalOutcome, evaluate2: string -> EvalOutcome)
    requires !LoopSafety.Analysis(parse(userCode)).safe
    ensures CompileScript(userCode, parse, evaluate1).compiledDecideFunction.None?
    ensures CompileScript(userCode, parse, evaluate1).error == CompileScript(userCode, parse, evaluate2).error
  {
  }

  /** The analyzer's own message always reaches the caller: the fallback text is never used. */
  lemma UnsafeSourceReportsAnalyzerError(userCode: string, parse: string -> Option<LoopSafety.Node>, evaluate: string -> EvalOutcome)
    requires !LoopSafety.Analysis(parse(userCode)).safe
    ensures CompileScript(userCode, parse, evaluate).error
            == Some(LoopSafety.ErrorText(LoopSafety.Analysis(parse(userCode)).dangerousLoops))
  {
    var a := LoopSafety.Analysis(parse(userCode));
    assert a.error == Some(LoopSafety.ErrorText(a.dangerousLoops));
    assert |LoopSafety.ErrorText(a.dangerousLoops)| > 0 by {
      assert LoopSafety.ErrorText(a.dangerousLoops)[..|LoopSafety.ERROR_HEADER|] == LoopSafety.ERROR_HEADER;
    }
  }

  /** Unparseable source passes the loop check; evaluation then reports the syntax error. */
  lemma UnparseableSourceReportsSyntaxError(userCode: string, parse: string -> Option<LoopSafety.Node>, evaluate: string -> EvalOutcome)
    requires parse(userCode).None? && evaluate(userCode).EvalThrows?
    ensures CompileScript(userCode, parse, evaluate)
            == CompileResult(None, Some(SYNTAX_ERROR_PREFIX + evaluate(userCode).error.CatchText()))
  {
  }

  /**
   * The wrapper contains every failure of the user function: whatever `decide`
   * does, the compiled function returns a decision, all false when `decide`
   * throws or returns null or undefined.
   */
  lemma CompiledFunctionContainsFailures(userCode: string, parse: string -> Option<LoopSafety.Node>,
                                         evaluate: string -> EvalOutcome, self: Snapshot, opponent: Snapshot)
    requires CompileScript(userCode, parse, evaluate).compiledDecideFunction.Some?
    ensures var decide := evaluate(userCode).decide;
            var out := CompileScript(userCode, parse, evaluate).compiledDecideFunction.value(self, opponent);
            (decide(self, opponent).Raised? ==> out == NEUTRAL) &&
            (decide(self, opponent).Returned? && IsNullish(decide(self, opponent).value) ==> out == NEUTRAL)
  {
  }
}
