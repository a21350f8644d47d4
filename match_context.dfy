/**
 * The refs the match composables share (composables/useMatchSetup.ts and
 * composables/useMatchUpdate.ts): the settings and game-state stores, the
 * script slots, the input manager, the active match, and the two timers
 * a round can leave pending. Timers are explicit: `countdown` is the live
 * countdown interval with the count its callback has captured, and
 * `restartPending` is the scheduled restart timeout.
 */
module Session {
  import opened Wrappers
  import opened GameEngine
  import opened GameStore
  import opened SettingsStore
  import opened ScriptSlots
  import opened Input

  /** `activeMatchRef.value`: the two fighters of the round on screen. */
  datatype Match = Match(p1: Fighter, p2: Fighter)

  /** A live countdown interval: the captured `count` and the step in milliseconds. */
  datatype Countdown = Countdown(count: int, intervalMs: int)

  class MatchContext {
    const settings: SettingsStore
    const store: GameStateStore
    const slots: ScriptSlots
    var inputManager: InputManager?
    var activeMatch: Option<Match>
    var countdown: Option<Countdown>
    var restartPending: bool

    constructor (settings: SettingsStore, store: GameStateStore, slots: ScriptSlots, inputManager: InputManager?)
      ensures this.settings == settings && this.store == store && this.slots == slots
      ensures this.inputManager == inputManager
      ensures activeMatch.None? && countdown.None? && !restartPending && Valid()
    {
      this.settings := settings;
      this.store := store;
      this.slots := slots;
      this.inputManager := inputManager;
      activeMatch := None;
      countdown := None;
      restartPending := false;
    }

    /** The two fighters of a match are different objects. */
    predicate Valid()
      reads this
    {
      activeMatch.Some? ==> activeMatch.value.p1 != activeMatch.value.p2
    }

    /** Everything one frame of the match may change besides the context and the state store. */
    function MatchObjects(): set<object?>
      reads this, if activeMatch.Some? then {activeMatch.value.p1, activeMatch.value.p2} else {}
    {
      if activeMatch.Some? then
        {activeMatch.value.p1, activeMatch.value.p2, activeMatch.value.p1.scriptWorker, activeMatch.value.p2.scriptWorker}
      else {}
    }
  }
}
