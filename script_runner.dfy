/**
 * services/CustomScriptRunner.ts: the default-template choice and the
 * host-side `ScriptWorkerManager`, which bridges the asynchronous worker into
 * the synchronous game loop through a cached decision.
 *
 * Worker creation can fail (`setupError`). Messages travel as explicit
 * events: `posted` is the channel from host to worker (first in, first out),
 * `Deliver` lets the worker handle the oldest message and hands its reply to
 * the host, and `OnWorkerMessage` / `OnWorkerError` are the host's handlers.
 * A terminated worker delivers nothing: a reply from any worker other than
 * the current one is ignored.
 */
module ScriptRunner {
  import opened Wrappers
  import opened Types
  import opened ScriptTypes
  import opened ScriptWorker
  import Templates

  /** `getDefaultTemplate(slotId?)`: template B for exactly 'slot2', template A otherwise. */
  function GetDefaultTemplate(slotId: Option<string>): (t: string)
    ensures slotId == Some("slot2") ==> t == Templates.DEFAULT_FIGHTER_SCRIPT_B
    ensures slotId != Some("slot2") ==> t == Templates.DEFAULT_FIGHTER_SCRIPT
  {
    if slotId == Some("slot2") then Templates.DEFAULT_FIGHTER_SCRIPT_B else Templates.DEFAULT_FIGHTER_SCRIPT
  }

  /** The value a `compile` promise resolves with. */
  datatype CompileOutcome = CompileOutcome(success: bool, error: Option<string>)

  /** `error || null`: a missing or empty message becomes null. */
  function ErrorOrNull(error: Option<string>): (r: Option<string>)
    ensures r.Some? ==> |r.value| > 0
    ensures error.Some? && |error.value| > 0 ==> r == error
  {
    match error
    case Some(e) => if |e| > 0 then error else None
    case None => None
  }

  /**
   * Between two states, a manager (if any) changed at most its queue of
   * posted requests: the worker, the cached decision, the compiled flag, the
   * last error and the compile promise are as they were.
   */
  twostate predicate OnlyPostedChanged(w: ScriptWorkerManager?)
    reads w
  {
    w != null ==>
      w.workerInstance == old(w.workerInstance) && w.cachedAction == old(w.cachedAction) &&
      w.scriptIsCompiled == old(w.scriptIsCompiled) && w.lastErrorMessage == old(w.lastErrorMessage) &&
      w.compileResult == old(w.compileResult)
  }

  class ScriptWorkerManager {
    var workerInstance: Worker?
    var cachedAction: InputState
    var scriptIsCompiled: bool
    var lastErrorMessage: Option<string>
    /** Messages posted to `workerInstance` that it has not handled yet, oldest first. */
    var posted: seq<WorkerRequest>
    /** What the promise of the latest `compile` call has resolved with, once it has. */
    var compileResult: Option<CompileOutcome>

    constructor ()
      ensures workerInstance == null && !scriptIsCompiled && cachedAction == NEUTRAL
      ensures lastErrorMessage == None && posted == [] && compileResult == None
    {
      workerInstance := null;
      cachedAction := NEUTRAL;
      scriptIsCompiled := false;
      lastErrorMessage := None;
      posted := [];
      compileResult := None;
    }

    /** `isReady()`. */
    predicate IsReady()
      reads this
    {
      scriptIsCompiled && workerInstance != null
    }

    /** `getAction()`: the cached decision. */
    function GetAction(): InputState
      reads this
    {
      cachedAction
    }

    /** `getError()`. */
    function GetError(): Option<string>
      reads this
    {
      lastErrorMessage
    }

    /**
     * The state `compile(userCode)` leaves before the worker answers: not
     * ready, the cached decision cleared; with a worker, the compile request
     * is the only message in flight and the promise is pending; without one,
     * the promise has already failed with the setup error.
     */
    predicate CompileStarted(userCode: string, setupError: Option<string>)
      reads this, workerInstance
    {
      !scriptIsCompiled && cachedAction == NEUTRAL &&
      (setupError.None? ==>
         workerInstance != null && workerInstance.decideFn.None? &&
         posted == [CompileRequest(userCode)] && compileResult.None?) &&
      (setupError.Some? ==>
         workerInstance == null && posted == [] && lastErrorMessage == setupError &&
         compileResult == Some(CompileOutcome(false, setupError)))
    }

    /**
     * `terminate()`: drops the worker (and with it every message still in
     * flight), clears the compiled flag and the cached decision; the last
     * error message is kept.
     */
    method Terminate()
      modifies this
      ensures workerInstance == null && !scriptIsCompiled && cachedAction == NEUTRAL && posted == []
      ensures lastErrorMessage == old(lastErrorMessage) && compileResult == old(compileResult)
      ensures !IsReady()
    {
      workerInstance := null;
      posted := [];
      scriptIsCompiled := false;
      cachedAction := NEUTRAL;
    }

    /**
     * `compile(userCode)` up to the point where it awaits the worker: the old
     * worker is terminated, a fresh worker gets the compile request, and the
     * new promise is pending. If the worker cannot be created, the promise
     * resolves at once with the failure.
     */
    method Compile(userCode: string, setupError: Option<string>)
      modifies this
      ensures !scriptIsCompiled && cachedAction == NEUTRAL && !IsReady()
      ensures CompileStarted(userCode, setupError)
      ensures setupError.None? ==>
                workerInstance != null && fresh(workerInstance) && workerInstance.decideFn.None? &&
                posted == [CompileRequest(userCode)] && compileResult == None &&
                lastErrorMessage == old(lastErrorMessage)
      ensures setupError.Some? ==>
                workerInstance == null && posted == [] && lastErrorMessage == setupError &&
                compileResult == Some(CompileOutcome(false, setupError))
    {
      Terminate();
      compileResult := None;
      if setupError.None? {
        var worker := new Worker();
        workerInstance := worker;
        posted := [CompileRequest(userCode)];
      } else {
        lastErrorMessage := setupError;
        compileResult := Some(CompileOutcome(false, setupError));
      }
    }

    /** Resolves the pending promise; a promise that has resolved keeps its first value. */
    method Resolve(outcome: CompileOutcome)
      modifies this`compileResult
      ensures compileResult == if old(compileResult).None? then Some(outcome) else old(compileResult)
    {
      if compileResult.None? {
        compileResult := Some(outcome);
      }
    }

    /**
     * `worker.onmessage` in the host. A 'compiled' reply sets the compiled flag
     * and the error, and resolves `compile`; a 'result' reply replaces the
     * cached decision only on success with an action, and records its error.
     */
    method OnWorkerMessage(from: Worker, reply: WorkerReply)
      modifies this
      ensures from != old(workerInstance) ==> unchanged(this)
      ensures workerInstance == old(workerInstance) && posted == old(posted)
      ensures from == old(workerInstance) && reply.Compiled? ==>
                scriptIsCompiled == reply.success &&
                lastErrorMessage == ErrorOrNull(reply.error) &&
                cachedAction == old(cachedAction) &&
                compileResult == (if old(compileResult).None?
                                  then Some(CompileOutcome(reply.success, ErrorOrNull(reply.error)))
                                  else old(compileResult))
      ensures from == old(workerInstance) && reply.Result? ==>
                scriptIsCompiled == old(scriptIsCompiled) &&
                compileResult == old(compileResult) &&
                cachedAction == (if reply.success && reply.action.Some? then reply.action.value else old(cachedAction)) &&
                lastErrorMessage == (if ErrorOrNull(reply.error).Some? then reply.error else old(lastErrorMessage))
    {
      if from != workerInstance {
        return;
      }
      match reply {
        case Compiled(success, error) =>
          scriptIsCompiled := success;
          lastErrorMessage := ErrorOrNull(error);
          Resolve(CompileOutcome(success, ErrorOrNull(error)));
        case Result(success, action, error) =>
          if success && action.Some? {
            cachedAction := action.value;
          }
          if ErrorOrNull(error).Some? {
            lastErrorMessage := error;
          }
      }
    }

    /** `worker.onerror`: the script is no longer compiled and `compile` resolves with the failure. */
    method OnWorkerError(from: Worker, message: string)
      modifies this
      ensures from != old(workerInstance) ==> unchanged(this)
      ensures workerInstance == old(workerInstance) && posted == old(posted) && cachedAction == old(cachedAction)
      ensures from == old(workerInstance) ==>
                !scriptIsCompiled && !IsReady() && lastErrorMessage == Some(message) &&
                compileResult == (if old(compileResult).None?
                                  then Some(CompileOutcome(false, Some(message)))
                                  else old(compileResult))
    {
      if from != workerInstance {
        return;
      }
      lastErrorMessage := Some(message);
      scriptIsCompiled := false;
      Resolve(CompileOutcome(false, Some(message)));
    }

    /** `requestAction(self, opponent)`: posts an execute request iff the script is ready. */
    method RequestAction(self: Snapshot, opponent: Snapshot)
      modifies this`posted
      ensures posted == if IsReady() then old(posted) + [ExecuteRequest(self, opponent)] else old(posted)
      ensures OnlyPostedChanged(this)
    {
      if workerInstance != null && scriptIsCompiled {
        posted := posted + [ExecuteRequest(self, opponent)];
      }
    }
  }

  /**
   * The worker handles the oldest message posted to it. A reply it posts
   * reaches the host's `onmessage`; a handler that throws instead (user code
   * threw null or undefined) raises the worker's `error` event, whose message
   * is `crashText`, and reaches the host's `onerror`.
   */
  method Deliver(m: ScriptWorkerManager, evaluate: string -> EvalOutcome, crashText: string)
    requires m.workerInstance != null && m.posted != []
    modifies m, m.workerInstance
    ensures m.workerInstance == old(m.workerInstance) && m.posted == old(m.posted)[1..]
    ensures m.cachedAction != old(m.cachedAction) ==> old(m.posted[0]).ExecuteRequest?
    ensures old(m.posted[0]).CompileRequest? ==>
              var o := CompileReply(old(m.posted[0]).code, evaluate);
              m.cachedAction == old(m.cachedAction) &&
              m.scriptIsCompiled == evaluate(old(m.posted[0]).code).DecideFound? &&
              (o.Posts? ==>
                 m.lastErrorMessage == ErrorOrNull(o.reply.error) &&
                 m.compileResult == (if old(m.compileResult).None?
                                     then Some(CompileOutcome(o.reply.success, ErrorOrNull(o.reply.error)))
                                     else old(m.compileResult))) &&
              (o.Crashes? ==>
                 m.lastErrorMessage == Some(crashText) &&
                 m.compileResult == (if old(m.compileResult).None?
                                     then Some(CompileOutcome(false, Some(crashText)))
                                     else old(m.compileResult)))
    ensures old(m.posted[0]).ExecuteRequest? ==>
              var o := ExecuteReply(old(m.workerInstance.decideFn), old(m.posted[0]).self, old(m.posted[0]).opponent);
              (o.Posts? ==>
                 m.scriptIsCompiled == old(m.scriptIsCompiled) && m.compileResult == old(m.compileResult) &&
                 m.cachedAction == (if o.reply.success then o.reply.action.value else old(m.cachedAction)) &&
                 m.lastErrorMessage == (if ErrorOrNull(o.reply.error).Some? then o.reply.error else old(m.lastErrorMessage))) &&
              (o.Crashes? ==>
                 !m.scriptIsCompiled && !m.IsReady() && m.cachedAction == old(m.cachedAction) &&
                 m.lastErrorMessage == Some(crashText) &&
                 m.compileResult == (if old(m.compileResult).None?
                                     then Some(CompileOutcome(false, Some(crashText)))
                                     else old(m.compileResult)))
  {
    var worker := m.workerInstance;
    var request := m.posted[0];
    m.posted := m.posted[1..];
    var outcome := worker.OnMessage(request, evaluate);
    match outcome {
      case Posts(reply) => m.OnWorkerMessage(worker, reply);
      case Crashes => m.OnWorkerError(worker, crashText);
    }
  }

  /**
   * The full round trip of `compile` when the worker starts: once the worker
   * has answered, the manager is ready iff the source defines `decide`, and
   * the promise resolves with the worker's verdict, or with the error event's
   * message when the worker's handler threw.
   */
  method CompileAndAwait(m: ScriptWorkerManager, userCode: string, evaluate: string -> EvalOutcome, crashText: string)
    modifies m
    ensures m.IsReady() <==> evaluate(userCode).DecideFound?
    ensures m.cachedAction == NEUTRAL && m.posted == []
    ensures CompileReply(userCode, evaluate).Posts? ==>
              m.compileResult == Some(CompileOutcome(evaluate(userCode).DecideFound?,
                                                     ErrorOrNull(CompileReply(userCode, evaluate).reply.error))) &&
              m.lastErrorMessage == ErrorOrNull(CompileReply(userCode, evaluate).reply.error)
    ensures CompileReply(userCode, evaluate).Crashes? ==>
              m.compileResult == Some(CompileOutcome(false, Some(crashText))) &&
              m.lastErrorMessage == Some(crashText)
  {
    m.Compile(userCode, None);
    Deliver(m, evaluate, crashText);
  }
}
