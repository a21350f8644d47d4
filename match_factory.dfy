/** services/MatchSetup.ts: the fighter factory. */
module MatchFactory {
  import opened Types
  import opened Config
  import opened CombatRules
  import opened ScriptRunner
  import opened GameEngine

  /** The worker managers a new match may bind its fighters to. */
  datatype ScriptWorkers = ScriptWorkers(workerA: ScriptWorkerManager?, workerB: ScriptWorkerManager?)

  /**
   * `MatchSetup.createFighter(type, x, workers)`: a new fighter at `x`; a
   * human one has no script, a custom one is script-driven and bound to its
   * slot's manager when there is one; an unrecognised type falls back to a
   * human-coloured fighter without a script.
   */
  method CreateFighter(playerType: PlayerType, x: real, workers: ScriptWorkers) returns (f: Fighter)
    ensures fresh(f) && f.Data() == Spawned(x)
    ensures playerType == HUMAN ==> !f.isCustom && f.scriptWorker == null && f.color == COLOR_HUMAN
    ensures playerType == CUSTOM_A ==> f.isCustom && f.scriptWorker == workers.workerA && f.color == COLOR_CUSTOM_A
    ensures playerType == CUSTOM_B ==> f.isCustom && f.scriptWorker == workers.workerB && f.color == COLOR_CUSTOM_B
    ensures playerType.Unrecognised? ==> !f.isCustom && f.scriptWorker == null && f.color == COLOR_HUMAN
  {
    match playerType {
      case HUMAN =>
        f := new Fighter(x, COLOR_HUMAN, false);
      case CUSTOM_A =>
        f := new Fighter(x, COLOR_CUSTOM_A, true);
        if workers.workerA != null {
          f.scriptWorker := workers.workerA;
        }
      case CUSTOM_B =>
        f := new Fighter(x, COLOR_CUSTOM_B, true);
        if workers.workerB != null {
          f.scriptWorker := workers.workerB;
        }
      case Unrecognised(_) =>
        f := new Fighter(x, COLOR_HUMAN, false);
    }
  }
}
