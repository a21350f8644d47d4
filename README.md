# Scriptman Fighters, modelled in Dafny

Scriptman Fighters is a browser fighting game. Each of the two fighters is
driven either by a human (keyboard, touch overlay or gamepad) or by a
user-written JavaScript `decide(self, opponent)` script. A script is checked
for unconditional loops, compiled inside a Web Worker and asked for a
decision every frame. The host caches the worker's latest answer so that the
game loop never waits.

This project models the host logic of that game and proves properties of it:

- **combat simulation** (`CombatRules`, `GameEngine`): a fighter's per-frame update, hit
  resolution and the counter table. These are pure step functions on a value
  `FighterData`, together with the `Fighter` class whose methods are proved
  to follow those functions.
- **loop-safety analyzer** (`LoopSafety`): the syntax tree of a script, its pre-order walk,
  the always-truthy test, the exit search and the report of dangerous loops.
- **script compiler and executor** (`ScriptCompiler`, `ScriptExecutor`): the
  extraction of `decide`, failure containment, and the sanitizing of whatever
  a script returns into the seven-boolean decision.
- **worker and its host-side manager** (`ScriptWorker`, `ScriptRunner`): the messages
  in flight, the compile promise, the cached decision and termination.
- **input** (`Input`): the keyboard, touch overlay and gamepad, merged into one input state.
- **persistence and validation** (`LocalStorage`, `ScriptStorage`, `Validation`): per-slot
  script storage, the script import and export document, and the settings schema.
- **composables** (`SettingsStore`, `GameStore`, `ScriptSlots`, `MatchFactory`,
  `MatchLifecycle`, `MatchLoop`): settings, game state, the two script slots,
  fighter creation, match start and countdown, and the per-frame match update.
  The per-frame update runs `simulationSpeed` iterations, with push-apart, hit
  checks, the clock, the round end and the HUD.

Timers, workers and browser events are explicit steps. `setTimeout` and
`setInterval` callbacks, `postMessage` deliveries and window listeners are
methods that the caller invokes. `new Function`, acorn's parser and
`JSON.parse` are oracles passed in as parameters. Numbers are exact `real`s.

## Where the code differs from its documentation

The model follows the code where the program's own comments and texts say otherwise.

- The comment on the `cooldown` field (services/GameEngine.ts:78) says a fighter
  is animation-locked while `cooldown > 15`. The code locks movement at
  `cooldown > 5` (services/GameEngine.ts:161), and the model uses 5.
- The hit-damage comment (services/GameEngine.ts:325) and the changelog
  (composables/useChangelog.ts:26) promise 3x damage from behind. The code
  computes the backstab condition but applies only the base damage
  (`CombatRules.BackstabDealsBaseDamage`).
- The script template documents energy as ranging from 0 to 100
  (templates/defaultFighterScript.ts:39). The code never clamps energy:
  - regeneration can overshoot 100 (`CombatRules.RegenerationOvershootsMax`);
  - the hit penalty can drive energy below 0 (`CombatRules.HitPenaltyCanMakeEnergyNegative`).
  Health is clamped at 0 (services/GameEngine.ts:388).

Only `compileScript` runs the loop-safety analyzer (services/CustomScriptCompiler.ts:30).
The worker's compile handler (services/CustomScriptWorker.js:36-65) evaluates the source without it.

## Model

| member | source | states |
|---|---|---|
| CombatRules.Spawned | services/GameEngine.ts:49-94 | a new fighter stands on the ground line at the given x, facing right, with 100 health, full energy, IDLE, no hitbox, no cooldown and no velocity |
| CombatRules.DeathStep | services/GameEngine.ts:135-148 | a dead fighter's ragdoll step never ends below the lying height; it lands (y clamped, vx halved, vy 0) or flies on with gravity, and its health, energy, cooldown, state, hitbox, direction and size are untouched |
| CombatRules.EnergyStep | services/GameEngine.ts:151-157 | only cooldown and energy change; a positive cooldown drops by one and never below 0; below the maximum energy regenerates at the idle rate when nearly still and IDLE, otherwise at the active rate; energy never falls |
| CombatRules.Walk | services/GameEngine.ts:165-177 | left wins over right; each needs COST_MOVE energy; the state is MOVE_LEFT, MOVE_RIGHT or IDLE exactly under those conditions, with the speed, facing and energy change of each; nothing else changes |
| CombatRules.Jump | services/GameEngine.ts:180-184 | with up pressed, on the ground and 15 energy the fighter gets vy -18, pays the cost and is JUMP; otherwise nothing changes |
| CombatRules.Crouch | services/GameEngine.ts:187-191 | with down pressed, on the ground and enough energy the fighter is CROUCH, pays the cost and halves vx; otherwise nothing changes |
| CombatRules.Block | services/GameEngine.ts:194-198 | with action3 and enough energy the fighter is BLOCK, pays the cost and keeps 30% of vx, on the ground or not; otherwise nothing changes |
| CombatRules.MovementStep | services/GameEngine.ts:160-199 | an animation-locked fighter (cooldown above 5) is unchanged; otherwise the state is one of the movement states and ends as BLOCK exactly when the block succeeds after walk, jump and crouch; position, health, cooldown, hitbox and size never change; energy never rises and never goes negative |
| CombatRules.AttackStep | services/GameEngine.ts:202-216 | nothing happens while cooldown is positive; otherwise a punch (wins over a kick) or a kick sets the state, keeps 20% of vx, sets cooldown 20 and pays its cost; energy stays non-negative |
| CombatRules.HitboxStep | services/GameEngine.ts:219-237 | only the hitbox changes; there is one exactly for a PUNCH or KICK with cooldown strictly between 5 and 15; its size and height follow the attack, and it sits flush against the fighter's front edge |
| CombatRules.PhysicsStep | services/GameEngine.ts:240-255 | vx is scaled by friction; the fighter ends no lower than the ground line and inside the walls; landing zeroes vy and turns JUMP into IDLE; otherwise y and vy follow velocity and gravity; an in-bounds move is kept exactly |
| CombatRules.Tick | services/GameEngine.ts:111-128 | one `update`: a dead fighter only runs the death step, a living one regenerates, moves, attacks, refreshes its hitbox and integrates, in that order; a tick never changes health or body size (only a hit lowers health) |
| CombatRules.ActiveInput | services/GameEngine.ts:116-120 | a script-driven fighter with a worker acts on the worker's decision and ignores the given input; any other fighter acts on the given input |
| CombatRules.FacingAway | services/GameEngine.ts:346-348 | the defender has its back to the attacker: the attacker is to its right while it faces left, or not to its right while it faces right |
| CombatRules.BaseDamage | services/GameEngine.ts:351 | a punch deals 5 and any other attack 10; the base damage is one of those two |
| CombatRules.Judge | services/GameEngine.ts:347-385 | the counter table: a defender facing away takes the base damage; a block stops a punch and halves a kick with a penalty; a crouch dodges a kick and halves a punch with a penalty; other states take the base damage; damage lies in [0, base]; a perfect counter means zero damage and never carries a penalty |
| CombatRules.Strike | services/GameEngine.ts:334-398 | without a connecting hit nothing changes; with one the defender's health drops by the judged damage floored at 0, it pays the penalty, is knocked back by 15 or 8 in the attacker's direction and popped up by 5; a perfect counter stuns the attacker by 5; the hitbox is consumed |
| CombatRules.SpawnedIsSane | services/GameEngine.ts:49-94 | a new fighter satisfies the tick invariant: energy in range, cooldown in [0, 20], the standard body size, and a hitbox only while attacking |
| CombatRules.TickKeepsSane | services/GameEngine.ts:111-128 | one update keeps that invariant, for every input |
| CombatRules.RunKeepsSane | services/GameEngine.ts:111-128 | any sequence of updates keeps that invariant |
| CombatRules.LivingTickStaysInArena | services/GameEngine.ts:240-255 | a living fighter ends each update between the walls and not below the ground line |
| CombatRules.CooldownCountsDown | services/GameEngine.ts:151-216 | with cooldown 2 or more a living fighter's update only counts it down by one; no new attack starts |
| CombatRules.NoHitboxOnFirstAttackFrame | services/GameEngine.ts:202-237 | the update that starts an attack leaves no hitbox: the box appears only once the cooldown is below 15 |
| CombatRules.DeadFighterKeepsHitbox | services/GameEngine.ts:111-148 | a dead fighter's update returns before the hitbox refresh, so its hitbox is kept |
| CombatRules.StrikeConsumesHitbox | services/GameEngine.ts:394-395 | a second check in the same frame changes nothing |
| CombatRules.BackstabDealsBaseDamage | services/GameEngine.ts:345-380 | a hit from behind deals exactly the base damage and never stuns the attacker; no backstab multiplier applies |
| CombatRules.RegenerationOvershootsMax | services/GameEngine.ts:156 | regeneration is not clamped: idle at 99.75 energy a fighter ends at 100.25 |
| CombatRules.HitPenaltyCanMakeEnergyNegative | services/GameEngine.ts:364-378 | the hit penalty is not clamped: some connecting hit leaves the defender with negative energy |
| GameEngine.SnapshotOf | services/GameEngine.ts:278-304 | the record a script sees copies position, velocity, health, energy, state name, direction, cooldown and size |
| GameEngine.ScriptDecision | services/GameEngine.ts:273-308 | no decision without a worker; the cached action when the worker is ready; the all-false input when it is not |
| GameEngine.Fighter.constructor | services/GameEngine.ts:89-94 | the new fighter's data is the spawned record at x, with the given color and control flag and no worker |
| GameEngine.Fighter.HandleDeathState | services/GameEngine.ts:135-148 | reports death exactly when health is not positive, and then applies the ragdoll step; a living fighter is unchanged |
| GameEngine.Fighter.UpdateEnergyAndCooldowns | services/GameEngine.ts:151-157 | the fighter's new data is the energy step of the old |
| GameEngine.Fighter.HandleMovementAndStates | services/GameEngine.ts:160-199 | the fighter's new data is the movement step of the old |
| GameEngine.Fighter.MoveHorizontally | services/GameEngine.ts:165-177 | the fighter's new data is the walk rule applied to the old |
| GameEngine.Fighter.TryJump | services/GameEngine.ts:180-184 | the fighter's new data is the jump rule applied to the old |
| GameEngine.Fighter.TryCrouch | services/GameEngine.ts:187-191 | the fighter's new data is the crouch rule applied to the old |
| GameEngine.Fighter.TryBlock | services/GameEngine.ts:194-198 | the fighter's new data is the block rule applied to the old |
| GameEngine.Fighter.HandleAttacks | services/GameEngine.ts:202-216 | the fighter's new data is the attack step of the old |
| GameEngine.Fighter.UpdateHitboxes | services/GameEngine.ts:219-237 | the fighter's new data is the hitbox step of the old |
| GameEngine.Fighter.UpdatePhysicsBounding | services/GameEngine.ts:240-255 | the fighter's new data is the physics step of the old |
| GameEngine.Fighter.ProcessCustom | services/GameEngine.ts:267-309 | without a ready worker it returns the all-false input and posts nothing; with one it posts exactly one execute request with both fighters' records and returns the cached action; the manager's worker, cached action, compiled flag, last error and pending compile are all unchanged |
| GameEngine.Fighter.Update | services/GameEngine.ts:111-128 | the fighter's new data is one tick on the input it acts on; a living script fighter with a ready worker posts exactly one execute request; otherwise the worker is untouched; in every case no field of the manager but its posted queue changes |
| GameEngine.Fighter.CheckHit | services/GameEngine.ts:334-398 | both fighters' new data is the strike rule applied to their old data |
| GameEngine.Fighter.LandHit | services/GameEngine.ts:345-395 | for a connecting hit, both fighters' new data is the strike rule applied to their old data |
| GameEngine.Fighter.TakeHit | services/GameEngine.ts:388-392 | health drops by the damage floored at 0; vx becomes the knockback and vy -5 |
| GameEngine.Fighter.ResolveCounters | services/GameEngine.ts:345-385 | damage and the perfect-counter flag are the counter table's; the defender pays the penalty exactly when the table says so |
| LoopSafety.Walk | services/LoopSafetyAnalyzer.ts:126-142 | the visit sequence starts with the node itself |
| LoopSafety.WalkIsPreorder | services/LoopSafetyAnalyzer.ts:126-142 | the walker visits a node, then each child's subtree in key order |
| LoopSafety.WalkMembers | services/LoopSafetyAnalyzer.ts:126-142 | a node is visited iff it is the root or is visited under one of the root's children |
| LoopSafety.WalkTransitive | services/LoopSafetyAnalyzer.ts:126-142 | a node visited under a visited node is itself visited, at any depth |
| LoopSafety.ContainsBreakOrReturn | services/LoopSafetyAnalyzer.ts:147-157 | the flag is set iff some node visited under the body is a break or a return |
| LoopSafety.HasExit | services/LoopSafetyAnalyzer.ts:147-157 | some node the walker visits under a loop body, the body included, is a `break` or a `return`, at any depth |
| LoopSafety.NestedExitExempts | services/LoopSafetyAnalyzer.ts:147-157 | a break or return anywhere in the body subtree, even one belonging to a nested loop, exempts the outer loop |
| LoopSafety.IsAlwaysTruthy | services/LoopSafetyAnalyzer.ts:162-181 | the condition is a truthy literal, the identifier `true`, or `!` applied to a falsy literal; any other expression, identifiers included, is not always truthy |
| LoopSafety.IsAlwaysTruthySound | services/LoopSafetyAnalyzer.ts:162-181 | a condition judged always truthy is truthy whatever its identifiers hold |
| LoopSafety.IsDangerous | services/LoopSafetyAnalyzer.ts:52-95 | the visitor's verdict: a while or do-while whose test is always truthy, or a for whose test is absent or always truthy, with no exit in its body; only a loop node is ever dangerous |
| LoopSafety.VisitLoop | services/LoopSafetyAnalyzer.ts:52-95 | the visitor pushes the loop's report, with its line, kind and reason, exactly for a dangerous while, for or do-while; nothing for any other node |
| LoopSafety.NatToString | services/LoopSafetyAnalyzer.ts:98 | a rendered line number is a non-empty string of decimal digits with no leading zero whose decimal value is the number |
| LoopSafety.AnalyzeLoopSafety | services/LoopSafetyAnalyzer.ts:41-121 | the result is the analysis of the parse result: safe with no error and no loops when parsing fails; safe iff no loop was reported; an unsafe result carries the header, one line per report and the footer |
| LoopSafety.Analysis | services/LoopSafetyAnalyzer.ts:41-121 | the analyzer's result: unsafe exactly when some loop is reported, and then the error is the header, one line per report and the fix hint; safe with no error and no loops when parsing fails |
| LoopSafety.ReportsNonEmpty | services/LoopSafetyAnalyzer.ts:52-97 | there are reports exactly when some visited node is a dangerous loop |
| LoopSafety.ReportsCoverDangerous | services/LoopSafetyAnalyzer.ts:52-95 | every dangerous visited node has its report |
| LoopSafety.AnalysisReportsEveryDangerousLoop | services/LoopSafetyAnalyzer.ts:41-111 | the analysis fails iff some loop anywhere in the tree is dangerous, and then every dangerous loop, nested ones included, has its entry |
| LoopSafety.ParseFailureIsSafe | services/LoopSafetyAnalyzer.ts:112-120 | source the parser rejects is passed on as safe, with no error and no loops |
| LoopSafety.InnerBreakExemptsOuterWhile | services/LoopSafetyAnalyzer.ts:147-157 | `while (true) { while (x) { break; } }` is not reported: the inner break counts for the outer loop |
| LoopSafety.EmptyForIsReported | services/LoopSafetyAnalyzer.ts:67-104 | `for (;;) {}` on line 3 is reported with that line, the kind 'for' and its reason, and the error text built from it |
| ScriptCompiler.SafeDecide | services/CustomScriptCompiler.ts:55-80 | a throwing decide gives the all-false input; a returned value is sanitized to seven booleans, all false for null or undefined |
| ScriptCompiler.CompileScript | services/CustomScriptCompiler.ts:26-91 | a function is returned iff no error is; an unsafe source fails with the analyzer's message and is not evaluated; an evaluation that throws gives "Syntax Error: " and its message; no decide gives the missing-decide message; otherwise the function is the containment wrapper around decide |
| ScriptCompiler.UnsafeSourceIsNotEvaluated | services/CustomScriptCompiler.ts:30-37 | for an unsafe source the result does not depend on what evaluating the source would do |
| ScriptCompiler.UnsafeSourceReportsAnalyzerError | services/CustomScriptCompiler.ts:32-36 | the analyzer's own report reaches the caller; the 'Dangerous loop detected' fallback is never used |
| ScriptCompiler.UnparseableSourceReportsSyntaxError | services/CustomScriptCompiler.ts:30-90 | source the parser rejects passes the loop check, and evaluation then reports the syntax error |
| ScriptCompiler.CompiledFunctionContainsFailures | services/CustomScriptCompiler.ts:55-80 | the compiled function always returns a decision: all false when decide throws or returns null or undefined |
| ScriptExecutor.RunScript | services/CustomScriptExecutor.ts:11-43 | no result (the catch block's own TypeError propagates) iff the call throws null or undefined; otherwise success iff the call returns, carrying its action and no error; a thrown error gives its message and the all-false action; an action is always present |
| ScriptExecutor.RunCompiledScriptSucceeds | services/CustomScriptExecutor.ts:11-43 | running what the compiler produced always succeeds, with the sanitized decision of the user's decide |
| ScriptTypes.Sanitize | services/CustomScriptWorker.js:83-91 | each of the seven flags is `Boolean(result?.flag)`: the truthiness of the property read through optional chaining |
| ScriptTypes.SanitizeNullish | services/CustomScriptWorker.js:83-91 | a null or undefined result sanitizes to the all-false input |
| ScriptTypes.SanitizeReadsFields | services/CustomScriptWorker.js:83-91 | each of the seven flags (left, right, up, down, action1, action2, action3) is set exactly when the result object has that property and it is truthy |
| ScriptTypes.SanitizeKeepsInputs | services/CustomScriptWorker.js:83-91 | a script returning a well-formed input gets exactly that input back |
| ScriptTypes.SanitizePrimitive | services/CustomScriptWorker.js:83-91 | a number, string, boolean or bigint result carries no fields and sanitizes to all false |
| ScriptWorker.CompileReply | services/CustomScriptWorker.js:36-65 | the handler crashes, posting nothing, iff evaluation throws null or undefined (reading `err.message` throws); otherwise a 'compiled' reply, success iff evaluating the source yields a decide function, with no error; otherwise the missing-decide message or "Syntax Error: " and the thrown message |
| ScriptWorker.ExecuteReply | services/CustomScriptWorker.js:67-102 | the handler crashes, posting nothing, iff the stored function throws null or undefined; otherwise a 'result' carrying an action; with no stored function, failure with the all-false action and "No script compiled"; success iff the stored function returns, and then the sanitized result; a thrown error gives the all-false action and its message |
| ScriptWorker.Worker.constructor | services/CustomScriptWorker.js:33 | a fresh worker holds no decide function |
| ScriptWorker.Worker.OnMessage | services/CustomScriptWorker.js:33-103 | the outcome is the one the reply functions give: its one reply, or a crash with no reply on a nullish throw; a successful compile stores the new decide function, a failed one keeps the previous, and an execute never changes it |
| ScriptRunner.GetDefaultTemplate | services/CustomScriptRunner.ts:37-42 | template B for exactly 'slot2'; template A for any other slot or none |
| ScriptRunner.ErrorOrNull | services/CustomScriptRunner.ts:120-121 | a present, non-empty message is kept; a missing or empty one becomes null |
| ScriptRunner.ScriptWorkerManager.constructor | services/CustomScriptRunner.ts:93-104 | no worker, not compiled, all-false cached action, no error, nothing in flight and no promise |
| ScriptRunner.ScriptWorkerManager.Terminate | services/CustomScriptRunner.ts:172-187 | the worker and its pending messages are dropped, the compiled flag and the cached action are cleared, the last error is kept, and the manager is not ready |
| ScriptRunner.ScriptWorkerManager.Compile | services/CustomScriptRunner.ts:106-148 | the old worker is terminated and the manager is not ready; a fresh worker holds only the compile request and the promise is pending; a failed setup resolves the promise at once with its message |
| ScriptRunner.ScriptWorkerManager.Resolve | services/CustomScriptRunner.ts:109 | a promise resolves once; later resolutions are ignored |
| ScriptRunner.ScriptWorkerManager.OnWorkerMessage | services/CustomScriptRunner.ts:115-132 | a reply from a worker that is not current changes nothing; 'compiled' sets the flag and the error and resolves compile; 'result' replaces the cached action only on success with an action, and records a non-empty error |
| ScriptRunner.ScriptWorkerManager.OnWorkerError | services/CustomScriptRunner.ts:134-138 | for the current worker: not compiled, the message recorded, compile resolved with the failure; the cached action is kept |
| ScriptRunner.ScriptWorkerManager.RequestAction | services/CustomScriptRunner.ts:150-158 | posts one execute request with both records iff the manager is ready; otherwise nothing is posted |
| ScriptRunner.ScriptWorkerManager.IsReady | services/CustomScriptRunner.ts:164-166 | ready exactly when the script is compiled and a worker exists |
| ScriptRunner.ScriptWorkerManager.GetAction | services/CustomScriptRunner.ts:160-162 | the cached decision, which only a successful execute reply replaces |
| ScriptRunner.ScriptWorkerManager.GetError | services/CustomScriptRunner.ts:168-170 | the last error recorded by a reply or by the error handler, or none |
| ScriptRunner.OnlyPostedChanged | services/CustomScriptRunner.ts:150-158 | posting a request leaves the worker, the cached decision, the compiled flag, the last error and the pending compile as they were |
| ScriptRunner.Deliver | services/CustomScriptRunner.ts:115-138 | the worker handles the oldest posted message and the host applies its reply, or, when the handler crashes, runs onerror with the error event's text: a compile makes the manager compiled iff the source defines decide, and a crashed compile resolves false with that text; an execute updates the cached action iff the script returned, and a crashed one marks the manager not compiled |
| ScriptRunner.CompileAndAwait | services/CustomScriptRunner.ts:106-148 | after the worker answers, the manager is ready iff the source defines decide, the cached action is all-false, nothing is in flight, and the promise holds the worker's verdict, or false with the error event's text when the handler crashed |
| Input.Overlay | services/InputManager.ts:193-195 | each field given in the update replaces the current one; every other field keeps its value |
| Input.Parse | services/InputManager.ts:74-77 | a key event's code parses to the key whose code name it is |
| Input.ParseIsInjective | services/InputManager.ts:59 | two codes parse to the same key exactly when they are equal, so the set of parsed keys holds what the set of code strings holds |
| Input.KeyboardState | services/InputManager.ts:134-142 | left iff ArrowLeft or KeyA is held, right iff ArrowRight or KeyD, up iff ArrowUp or KeyW, down iff ArrowDown or KeyS, punch iff KeyJ, kick iff KeyK, block iff KeyL |
| Input.PadState | services/InputManager.ts:165-180 | each direction is the stick past the 0.5 dead zone or its d-pad button; punch is button 2 or 0, kick 3 or 1, block 5, 4 or 7; a missing axis reads 0 and a missing button reads unpressed |
| Input.PadAt | services/InputManager.ts:158-161 | no pad without a known index or past the end of the list; otherwise the pad in that slot, which may be empty |
| Input.Merge | services/InputManager.ts:132-187 | the merged state covers the keyboard state, the touch state and, when a pad is present, the pad state |
| Input.InputManager.constructor | services/InputManager.ts:57-95 | no keys held, no gamepad index and an all-false touch state |
| Input.InputManager.HandleKeyDown | services/InputManager.ts:74 | the pressed key is added to the held set |
| Input.InputManager.HandleKeyUp | services/InputManager.ts:77 | the released key is removed from the held set |
| Input.InputManager.HandleGamepadConnected | services/InputManager.ts:80-83 | the connected pad's index is remembered |
| Input.InputManager.SetTouchState | services/InputManager.ts:193-195 | the touch state becomes the old one overlaid with the given fields |
| Input.InputManager.GetState | services/InputManager.ts:132-187 | keyboard OR touch when no pad is present, and that OR the pad state when one is; always covers the keyboard and touch states |
| Input.MergeIsMonotone | services/InputManager.ts:132-187 | holding more keys or touch flags never clears a flag of the merged state |
| AssertUtils.NewInvariantError | utils/assert.ts:23-28 | the message is the given one behind the "Invariant Violation: " prefix, and the name is 'InvariantError' |
| AssertUtils.Assert | utils/assert.ts:48-53 | passes iff the condition is truthy; otherwise throws an InvariantError carrying the message |
| AssertUtils.AssertDefined | utils/assert.ts:73-78 | passes iff the value is neither null nor undefined; otherwise the error says "<name> must be defined" |
| AssertUtils.AssertNonEmptyString | utils/assert.ts:87-95 | passes iff the value is a string of positive length; otherwise the error says "<name> must be a non-empty string" |
| AssertUtils.AssertInRange | utils/assert.ts:106-116 | passes iff min <= value <= max, both bounds inclusive; otherwise the error names the bounds and the value |
| AssertUtils.AssertNever | utils/assert.ts:140-142 | always throws, with "Unexpected value: " and the serialized value |
| LocalStorage.Store.constructor | services/CustomScriptStorage.ts:37-55 | a store holding the given items, whose reads and writes each fail or not |
| LocalStorage.Store.GetItem | services/CustomScriptStorage.ts:55 | throws exactly when reads fail; otherwise the stored value iff the key is present |
| LocalStorage.Store.SetItem | services/CustomScriptStorage.ts:37 | throws exactly when writes fail, keeping the items; otherwise the key maps to the value and nothing else changes |
| ScriptStorage.GetDefaultScriptForSlot | services/CustomScriptStorage.ts:22-27 | template B for exactly 'slot2', template A for every other slot; never empty |
| ScriptStorage.StorageKey | services/CustomScriptStorage.ts:12-55 | the key is the 'scriptman_fighter_script_' prefix followed by the slot id |
| ScriptStorage.StorageKeyInjective | services/CustomScriptStorage.ts:12-55 | two slots sharing a key are the same slot, so slots never overwrite each other |
| ScriptStorage.SaveScript | services/CustomScriptStorage.ts:35-41 | a store that takes the write maps the slot's key to the code, one that refuses it is left as it was, so every slot then loads what it loaded before (a quota-exceeded store keeps serving the previous script); on a working store a non-empty saved script is what the next load returns |
| ScriptStorage.LoadScript | services/CustomScriptStorage.ts:52-61 | never empty: the saved script when it is a non-empty string, the slot's template when nothing is saved, the saved string is empty or the store throws |
| ScriptStorage.ExportDocument | services/CustomScriptStorage.ts:69-74 | an object carrying the code, the 'scriptman-fighter-script' type marker and version 1 |
| ScriptStorage.Field | services/CustomScriptStorage.ts:101-102 | a property read throws exactly on null and undefined |
| ScriptStorage.ImportScript | services/CustomScriptStorage.ts:97-114 | the code comes back iff the input parsed to an object whose type is the marker and whose code is a string; null otherwise |
| ScriptStorage.ExportThenImport | services/CustomScriptStorage.ts:68-108 | importing an exported document gives back exactly the exported code |
| Validation.ParsePlayer1Type | utils/validation.ts:24 | accepts exactly the strings 'HUMAN', 'CUSTOM_A' and 'CUSTOM_B', each as the player type stored under that name |
| Validation.ParsePlayer2Type | utils/validation.ts:25 | accepts exactly the strings 'CUSTOM_A' and 'CUSTOM_B', each as its player type; 'HUMAN' is refused |
| Types.PlayerTypeValue | types.ts:85 | a player type is stored as one of the three type names exactly when it is one of the three types; an unrecognised one is stored as its own value |
| Types.StoredPlayerType | services/MatchSetup.ts:34-59 | reading a stored value as a player type inverts storing it, and yields an unrecognised type exactly when the value names none of the three |
| Types.StoredPlayerTypeRoundTrip | services/MatchSetup.ts:34-59 | storing a player type and reading it back gives the same type |
| Validation.ParseNumberIn | utils/validation.ts:22-23 | accepts a number iff it lies within the inclusive bounds, and keeps it as it is |
| Validation.ValidSettings | utils/validation.ts:21-27 | the settings the schema admits: fps in [30, 120], simulation speed in [1, 10], a player 1 type among the three names, and a player 2 that is CUSTOM_A or CUSTOM_B |
| Validation.ParseGameSettings | utils/validation.ts:21-27 | succeeds iff the value is an object with fps in [30, 120], speed in [1, 10], a valid player 1 type, a non-human player 2 type and a boolean running flag; what it returns is always valid |
| Validation.SettingsToJs | utils/validation.ts:21-27 | an object of exactly the five schema keys, each holding the settings' own value (fps and simulationSpeed as numbers, the player types by name, isRunning as a boolean) |
| Validation.SettingsRoundTrip | utils/validation.ts:21-27 | stored settings parse back to themselves iff they satisfy the schema, and are refused otherwise |
| Validation.SafeLoadFromStorage | utils/validation.ts:43-64 | a value comes back iff the read succeeds with a non-empty string that parses and passes the schema, and it is then the schema's result; null in every other case |
| SettingsStore.CreateDefaultSettings | composables/useGameSettings.ts:12-18 | 60 fps, speed 1, a human player 1 against script A, not running |
| SettingsStore.InitialSettings | composables/useGameSettings.ts:22-29 | each persisted field overrides its default without any check, so a stored player type is kept as the very value stored (an unknown name, or 'HUMAN' for player 2, included); without persisted settings the defaults; the game always starts paused |
| SettingsStore.PersistedSettingsComeBackPaused | composables/useGameSettings.ts:22-29 | settings persisted in full, whatever their player types, load back unchanged except that they are paused |
| SettingsStore.SettingsStore.constructor | composables/useGameSettings.ts:22-31 | the store starts from the merged initial settings |
| SettingsStore.SettingsStore.SetSettings | composables/useGameSettings.ts:40-46 | an updater function is applied to the current settings; a value replaces them |
| GameStore.CreateDefaultGameState | composables/useGameState.ts:13-24 | full health and energy, 90 s on the clock, no match, no winner, WAITING, zero arcade stats, no countdown |
| GameStore.GameStateStore.constructor | composables/useGameState.ts:27-29 | the store starts from the default state with 90 s on the clock |
| GameStore.GameStateStore.ResetMatchTimer | composables/useGameState.ts:35-37 | the clock is back at 90 s |
| GameStore.GameStateStore.SetGameState | composables/useGameState.ts:39-45 | an updater function is applied to the current state; a value replaces it |
| ScriptSlots.WatchToast | composables/useCustomScriptWorkers.ts:33-37 | an error toast naming the script and the error iff the compile failed; nothing on success |
| ScriptSlots.RecompileToast | composables/useCustomScriptWorkers.ts:70-77 | a success toast "<name> recompiled!" iff the compile succeeded, otherwise an error toast with the error and a full stop |
| ScriptSlots.SlotNamesDiffer | composables/useCustomScriptWorkers.ts:23-34 | the two slots have different ids and different toast names |
| ScriptSlots.ScriptSlots.constructor | composables/useCustomScriptWorkers.ts:15-16 | both slots start without a manager |
| ScriptSlots.ScriptSlots.CompileWorker | composables/useCustomScriptWorkers.ts:22-39 | the slot ends with a manager, the existing one if any, and the other slot is untouched; a compile of the slot's loaded script starts iff the slot had no manager or its manager was not ready, and otherwise the manager is unchanged |
| ScriptSlots.ScriptSlots.OnPlayerTypesChanged | composables/useCustomScriptWorkers.ts:19-55 | slot 1 compiles iff either player is CUSTOM_A and its manager is missing or not ready, slot 2 likewise for CUSTOM_B; a slot that does not compile keeps its manager unchanged; the two slots never share a manager |
| ScriptSlots.ScriptSlots.RecompileCustomScript | composables/useCustomScriptWorkers.ts:58-84 | every slot that has a manager starts a compile of its loaded script, ready or not; a slot without one is left alone |
| ScriptSlots.ScriptSlots.RecompileSlot | composables/useCustomScriptWorkers.ts:59-70 | the slot's manager starts a compile of the slot's loaded script; the empty-script early return is never taken |
| MatchFactory.CreateFighter | services/MatchSetup.ts:29-59 | a new fighter spawned at x; a human one is not script-driven, has no worker and is human-coloured; a CUSTOM_A or CUSTOM_B one is script-driven, coloured for its slot and bound to that slot's manager (none when the slot has none); any other type name falls back to a human-coloured fighter with no script |
| Templates.TemplatesDistinctAndNonEmpty | templates/defaultFighterScript.ts:15 | both templates are non-empty and differ from each other |
| Js.OptionalField | services/CustomScriptWorker.js:84-90 | `v?.name` is undefined on null and undefined, and an object's own property when present |
| Session.MatchContext.constructor | composables/useMatchSetup.ts:17-29 | the context holds the given stores, slots and input manager, with no match, no countdown and no restart pending |
| MatchLifecycle.TickOnce | composables/useMatchSetup.ts:109-126 | the captured count drops by one; a count still at or above 0 is shown and the interval lives on; below 0 the round turns FIGHTING, the count display clears and the interval is cleared |
| MatchLifecycle.CountdownSequence | composables/useMatchSetup.ts:92-127 | from a fresh countdown the ticks show 2, 1 and 0, the fourth starts the fight and clears the interval, and every later tick changes nothing |
| MatchLifecycle.ClearCountdownInterval | composables/useMatchSetup.ts:38-43 | no countdown interval is live afterwards |
| MatchLifecycle.StartCountdown | composables/useMatchSetup.ts:92-107 | any earlier interval is replaced by one counting from 3 at 233 ms (fast) or 700 ms; the HUD shows 3 in COUNTDOWN and nothing else changes |
| MatchLifecycle.CountdownTick | composables/useMatchSetup.ts:109-126 | the game state and the interval after a tick are exactly one countdown step of the old ones |
| MatchLifecycle.SpawnFighters | composables/useMatchSetup.ts:53-65 | two new, distinct fighters spawned at 280 + offset and 470 - offset, player 2 facing left, each bound to the script slot its player type names |
| MatchLifecycle.MatchStarted | composables/useMatchSetup.ts:45-85 | the countdown is cancelled, the clock reset to 90 and two new fighters spawned symmetrically (their x-sum is 750) and bound to their slots; the round opens active, WAITING, with 90 s, no winner and no count shown; when the game is running the countdown shows 3 in COUNTDOWN with its interval live at 233 ms after the first match and 700 ms before |
| MatchLifecycle.StartMatch | composables/useMatchSetup.ts:45-85 | leaves the state `MatchStarted` describes |
| MatchLoop.Separate | composables/useMatchUpdate.ts:88-100 | only x changes; the sum of the two x positions is kept; bodies that do not overlap on both axes are untouched; two overlapping bodies of equal width end exactly touching, in their left-right order |
| MatchLoop.Step | composables/useMatchUpdate.ts:84-107 | the clock loses 1/60 s exactly while FIGHTING; neither fighter's health rises, and a non-negative health stays non-negative |
| MatchLoop.Loops | composables/useMatchUpdate.ts:65-71 | no iterations for a speed of 0 or less; otherwise the ceiling of the speed |
| MatchLoop.LoopsCountsIterations | composables/useMatchUpdate.ts:71 | the index passes the loop test `i < loops` exactly while it is below that iteration count |
| MatchLoop.RoundEnd | composables/useMatchUpdate.ts:118-128 | the round is inactive and ROUND_END; one more match is played and exactly one side gets the win, player 1 iff it has more health, so a draw goes to player 2; nothing else changes |
| MatchLoop.Hud | composables/useMatchUpdate.ts:143-166 | the HUD shows both fighters' healths and energies and the clock floored at 0; nothing else changes |
| MatchLoop.Frame | composables/useMatchUpdate.ts:64-166 | an inactive match does not move; an active one runs up to the loop count of iterations and stops at the first that ends the round; the round ends iff it is over after at least one iteration, and then the result is recorded with a draw going to player 2; the HUD follows the fighters |
| MatchLoop.SimulateKeepsHealthInRange | composables/useMatchUpdate.ts:71-141 | over a whole frame health never rises and never drops below 0 |
| MatchLoop.ClockFrozenOutsideFighting | composables/useMatchUpdate.ts:105-107 | outside FIGHTING the clock does not move during a frame |
| MatchLoop.ClockRunsWhileFighting | composables/useMatchUpdate.ts:105-107 | while FIGHTING a frame of k iterations takes the clock down by at most k/60 s and never raises it |
| MatchLoop.FightingRoundEnds | composables/useMatchUpdate.ts:105-113 | enough FIGHTING iterations to run the clock down always end the round |
| MatchLoop.SimulateStopsAtRoundEnd | composables/useMatchUpdate.ts:112-139 | an iteration that ends the round is the last of the frame |
| MatchLoop.P1Input | composables/useMatchUpdate.ts:68-82 | player 1 acts on the input manager's state only when human, with a manager and outside WAITING; otherwise on the all-false input |
| MatchLoop.PollP1Input | composables/useMatchUpdate.ts:75-82 | the polled input is player 1's input for the round status |
| MatchLoop.ClearMatchRestartTimeout | composables/useMatchUpdate.ts:29-34 | no restart is pending afterwards |
| MatchLoop.RestartTimeoutFired | composables/useMatchUpdate.ts:133-137 | a new round starts exactly as `startMatch` leaves it (`MatchStarted`: new fighters at their spawn points and slots, WAITING or the countdown, fast after the first match), the arcade stats are kept and no restart is pending |
| MatchLoop.UpdateBoth | composables/useMatchUpdate.ts:85-86 | player 1 ticks on its input and player 2 on the all-false input, each overridden by its script's decision; the workers and their decisions are kept |
| MatchLoop.PushApart | composables/useMatchUpdate.ts:88-100 | the two fighters' new data is the push-apart of the old |
| MatchLoop.PlayTick | composables/useMatchUpdate.ts:84-107 | the fighters and the clock after one iteration are the value-level step of the ones before |
| MatchLoop.EndRound | composables/useMatchUpdate.ts:112-137 | the round result is recorded and a restart is pending |
| MatchLoop.Iterate | composables/useMatchUpdate.ts:84-140 | one step of the fighters and the clock; the round ends exactly when that step leaves it over, and then the result is recorded and a restart scheduled |
| MatchLoop.TickLoop | composables/useMatchUpdate.ts:66-141 | an inactive match does not move; an active one ends where the value-level simulation of the loop count ends; it reports the end of the round exactly when the round is over after at least one iteration, and records it then |
| MatchLoop.UpdateHud | composables/useMatchUpdate.ts:143-166 | the game state becomes the HUD of the fighters and the clock |
| MatchLoop.RunFrame | composables/useMatchUpdate.ts:64-166 | the fighters, the clock, the game state and the pending restart after the frame are the value-level frame of the ones before |
| MatchLoop.Update | composables/useMatchUpdate.ts:36-169 | without a match a new one starts exactly as `startMatch` leaves it (`MatchStarted`), with the pending restart and the input manager untouched; while paused or in COUNTDOWN nothing changes; otherwise the frame runs as the value-level frame says, on the same match and input manager, with the countdown untouched and no field of either script manager but its posted queue changed |

## Left out

- I/O is not modelled: canvas rendering, `console` logging, the download in `exportScript`, and `JSON.parse`/`JSON.stringify`. Parsing arrives as an already-parsed value, or None when it threw.
- The two script templates' JavaScript bodies are not modelled. Stand-in texts keep only that each is non-empty and that they differ.
- Threads and real Web Workers are not modelled. A message is handled when `ScriptRunner.Deliver` is called, so any interleaving can be replayed by choosing the order of calls.
- Vue reactivity is not modelled. Watchers are methods called by the caller, and `gameStateRef`/`settingsRef` are read as the state itself. Writing the settings back to storage on change is persistence and is left out.
- `requestAnimationFrame` is left out. One call of `MatchLoop.Update` is one frame.
- Timers are left out. The restart timeout and the countdown interval are flags and events that the caller fires.
- The waiting timeout of composables/useMatchSetup.ts is never armed in the source, so clearing it does nothing and it is not a field.
- Floating point is not modelled. Positions, velocities, energy and the 1/60 clock step are exact reals, so results that depend on IEEE rounding are not captured. `NaN` exists only as a falsy JavaScript value.
- Number formatting inside error messages (`${value}`) and `JSON.stringify` in `assertNever` are function parameters.
- Key codes other than the eleven the game maps become `Input.Other`. `Input.Parse` keeps the string, so no information is lost.
- GameEngine.Fighter.CheckHit: requires the opponent to be a different fighter object. A fighter checking a hit against itself is not modelled.
- MatchLoop.Update: the execute requests posted to the workers during a frame are stored in each manager's queue but are not listed item by item in the contract.
- MatchLoop.Update: player 1's input is polled once per frame instead of once per iteration. Nothing can change the input manager between two iterations of one frame, so this is the same state.
- LoopSafety.AnalyzeLoopSafety: acorn is an oracle. Its result is a syntax tree or a parse error with a message.
- Line numbers of syntax nodes come from that tree as given.
- ScriptCompiler.CompileScript: `new Function` is an oracle. It yields the decision function, the absence of one, or a thrown message.
- A decision function is a mathematical function of its two snapshots. A script's own state and `Math.random` between calls are not captured.
- ScriptWorker.CompileReply: a thrown value is an `Error` with its message, `null` or `undefined`. A thrown non-Error value such as `throw 42` is folded into the first case, so the reply carries a message text where the worker's `err.message` would read `undefined`.
- ScriptWorker.ExecuteReply: a thrown non-Error value is folded into a thrown message in the same way.
- ScriptExecutor.RunScript: a thrown non-Error value is folded into a thrown message in the same way.
- ScriptCompiler.CompileScript: a thrown non-Error value is folded into a thrown message, where the source's `String(err)` would render the value itself.
- ScriptRunner.Deliver: the message of the error event that a crashing worker handler raises is the parameter `crashText`. The browser's wording of the uncaught TypeError is not modelled, and neither is the same for `ScriptRunner.CompileAndAwait`.
- ScriptExecutor.RunScript: the TypeError it propagates on a nullish throw is the absent result `None`; its message is not modelled.
- SettingsStore.InitialSettings: persisted `fps` and `simulationSpeed` are taken to be numbers and a persisted `isRunning` a boolean. The spread in composables/useGameSettings.ts:22-29 checks no type, so a stored string `fps` would reach the settings; the model cannot express that. Player types are kept as stored, unknown ones included.
- Js.OptionalField: reads only an object's own data properties. Inherited properties (a class instance, `Object.create({left: true})`) read as undefined, where the source finds them through the prototype. Getters are not modelled, so a getter that throws while `ScriptTypes.Sanitize` reads it, which makes the worker post a failed result and makes `ScriptCompiler.SafeDecide` return the all-false input, is not captured: the model always sanitizes.
- LocalStorage.Store: a store either takes every write or refuses every write. A quota that refuses a large value but takes a small one is not captured.
