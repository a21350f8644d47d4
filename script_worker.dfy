/**
 * The worker side of the isolation channel (services/CustomScriptWorker.js):
 * its `onmessage` handler, which keeps the compiled `decide` in `_decideFn`
 * and answers each request with one reply, unless its catch block throws.
 */
module ScriptWorker {
  import opened Wrappers
  import opened Js
  import opened Types
  import opened ScriptTypes

  /** Messages the host posts to a worker. */
  datatype WorkerRequest =
    | CompileRequest(code: string)
    | ExecuteRequest(self: Snapshot, opponent: Snapshot)

  /** Messages a worker posts back. */
  datatype WorkerReply =
    | Compiled(success: bool, error: Option<string>)
    | Result(success: bool, action: Option<InputState>, error: Option<string>)

  /**
   * What handling one request does: post exactly one reply, or throw out of
   * the handler before posting anything. The second happens when user code
   * threw null or undefined, because the catch block then reads `message` of
   * that value; the host sees it as the worker's `error` event.
   */
  datatype HandlerOutcome = Posts(reply: WorkerReply) | Crashes

  const NO_SCRIPT_MESSAGE: string := "No script compiled"

  /**
   * The handling of a compile request. Compilation only evaluates the source
   * and looks for `decide`: the worker never runs the loop analyzer.
   */
  function CompileReply(code: string, evaluate: string -> EvalOutcome): (o: HandlerOutcome)
    ensures o.Crashes? <==> evaluate(code).EvalThrows? && evaluate(code).error.MessageReadThrows()
    ensures o.Posts? ==> o.reply.Compiled?
    ensures o.Posts? ==> (o.reply.success <==> evaluate(code).DecideFound?)
    ensures o.Posts? && o.reply.success ==> o.reply.error == None
    ensures evaluate(code).NoDecide? ==> o == Posts(Compiled(false, Some(MISSING_DECIDE_MESSAGE)))
    ensures evaluate(code).EvalThrows? && evaluate(code).error.Thrown? ==>
              o == Posts(Compiled(false, Some(SYNTAX_ERROR_PREFIX + evaluate(code).error.message)))
  {
    match evaluate(code)
    case EvalThrows(e) =>
      if e.MessageReadThrows() then Crashes
      else Posts(Compiled(false, Some(SYNTAX_ERROR_PREFIX + e.message)))
    case NoDecide => Posts(Compiled(false, Some(MISSING_DECIDE_MESSAGE)))
    case DecideFound(_) => Posts(Compiled(true, None))
  }

  /** The handling of an execute request, given the stored `_decideFn`. */
  function ExecuteReply(stored: Option<DecideFn>, self: Snapshot, opponent: Snapshot): (o: HandlerOutcome)
    ensures o.Crashes? <==>
              stored.Some? && stored.value(self, opponent).Raised? && stored.value(self, opponent).error.MessageReadThrows()
    ensures o.Posts? ==> o.reply.Result? && o.reply.action.Some?
    ensures stored.None? ==> o == Posts(Result(false, Some(NEUTRAL), Some(NO_SCRIPT_MESSAGE)))
    ensures o.Posts? ==> (o.reply.success <==> stored.Some? && stored.value(self, opponent).Returned?)
    ensures o.Posts? && o.reply.success ==>
              o.reply == Result(true, Some(Sanitize(stored.value(self, opponent).value)), None)
    ensures o.Posts? && !o.reply.success ==> o.reply.action == Some(NEUTRAL) && o.reply.error.Some?
    ensures stored.Some? && stored.value(self, opponent).Raised? && stored.value(self, opponent).error.Thrown? ==>
              o == Posts(Result(false, Some(NEUTRAL), Some(stored.value(self, opponent).error.message)))
  {
    match stored
    case None => Posts(Result(false, Some(NEUTRAL), Some(NO_SCRIPT_MESSAGE)))
    case Some(decide) =>
      match decide(self, opponent)
      case Returned(v) => Posts(Result(true, Some(Sanitize(v)), None))
      case Raised(e) =>
        if e.MessageReadThrows() then Crashes
        else Posts(Result(false, Some(NEUTRAL), Some(e.message)))
  }

  /** The worker's global scope: the `decide` kept by the last successful compile. */
  class Worker {
    var decideFn: Option<DecideFn>

    /** A freshly started worker has compiled nothing. */
    constructor ()
      ensures decideFn.None?
    {
      decideFn := None;
    }

    /**
     * `self.onmessage`: handles one request and returns what that does.
     * A successful compile replaces `_decideFn`; a failed one leaves the
     * previous function in place; an execute never changes it.
     */
    method OnMessage(request: WorkerRequest, evaluate: string -> EvalOutcome) returns (outcome: HandlerOutcome)
      modifies this
      ensures request.CompileRequest? ==> outcome == CompileReply(request.code, evaluate)
      ensures request.CompileRequest? && evaluate(request.code).DecideFound? ==>
                decideFn == Some(evaluate(request.code).decide)
      ensures request.CompileRequest? && !evaluate(request.code).DecideFound? ==> decideFn == old(decideFn)
      ensures request.ExecuteRequest? ==>
                outcome == ExecuteReply(old(decideFn), request.self, request.opponent) && decideFn == old(decideFn)
    {
      match request {
        case CompileRequest(code) =>
          var evaluated := evaluate(code);
          if evaluated.DecideFound? {
            decideFn := Some(evaluated.decide);
          }
          outcome := CompileReply(code, evaluate);
        case ExecuteRequest(self, opponent) =>
          outcome := ExecuteReply(decideFn, self, opponent);
      }
    }
  }
}
