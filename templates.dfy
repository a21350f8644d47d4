/**
 * The two default script templates (templates/defaultFighterScript.ts and
 * templates/defaultFighterScriptB.ts). Their JavaScript bodies are not part of
 * this model; stand-in texts keep the two facts the host relies on: each is a
 * non-empty script and the two differ.
 */
module Templates {

  const DEFAULT_FIGHTER_SCRIPT: string :=
    "function decide(self, opponent) { /* Script A: strategic template */ }"

  const DEFAULT_FIGHTER_SCRIPT_B: string :=
    "function decide(self, opponent) { /* Script B: chaotic template */ }"

  lemma TemplatesDistinctAndNonEmpty()
    ensures |DEFAULT_FIGHTER_SCRIPT| > 0 && |DEFAULT_FIGHTER_SCRIPT_B| > 0
    ensures DEFAULT_FIGHTER_SCRIPT != DEFAULT_FIGHTER_SCRIPT_B
  {
    assert DEFAULT_FIGHTER_SCRIPT[44] != DEFAULT_FIGHTER_SCRIPT_B[44];
  }
}
