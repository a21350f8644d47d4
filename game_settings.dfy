/**
 * composables/useGameSettings.ts: default settings, the merge with persisted
 * settings on load, and the setter. Writing the settings back to storage on
 * every change is persistence and is not modelled.
 */
module SettingsStore {
  import opened Wrappers
  import opened Types
  import opened Config
  import opened Js

  /** `createDefaultSettings()`. */
  function CreateDefaultSettings(): (s: GameSettings)
    ensures s.fps == DEFAULT_FPS && s.simulationSpeed == 1.0
    ensures s.player1Type == HUMAN && s.player2Type == CUSTOM_A && !s.isRunning
  {
    GameSettings(DEFAULT_FPS, 1.0, HUMAN, CUSTOM_A, false)
  }

  /**
   * The persisted settings object: any subset of the fields. `loadSettings`
   * applies no schema, so a stored player type is whatever JSON value was
   * saved under its key.
   */
  datatype PersistedSettings = PersistedSettings(
    fps: Option<real>,
    simulationSpeed: Option<real>,
    player1Type: Option<JsValue>,
    player2Type: Option<JsValue>,
    isRunning: Option<bool>)

  /** A persisted player type overrides the default one, unchecked. */
  function StoredType(persisted: Option<JsValue>, default: PlayerType): PlayerType {
    match persisted
    case None => default
    case Some(v) => StoredPlayerType(v)
  }

  /**
   * `{ ...defaults, ...(persisted || {}), isRunning: false }`: each persisted
   * field overrides the default of the same name; the game always starts paused.
   */
  function InitialSettings(persisted: Option<PersistedSettings>): (s: GameSettings)
    ensures !s.isRunning
    ensures persisted.None? ==> s == CreateDefaultSettings()
    ensures persisted.Some? ==>
              s.fps == persisted.value.fps.GetOr(DEFAULT_FPS) &&
              s.simulationSpeed == persisted.value.simulationSpeed.GetOr(1.0) &&
              (persisted.value.player1Type.None? ==> s.player1Type == HUMAN) &&
              (persisted.value.player2Type.None? ==> s.player2Type == CUSTOM_A)
    ensures persisted.Some? && persisted.value.player1Type.Some? ==>
              PlayerTypeValue(s.player1Type) == persisted.value.player1Type.value
    ensures persisted.Some? && persisted.value.player2Type.Some? ==>
              PlayerTypeValue(s.player2Type) == persisted.value.player2Type.value
  {
    var defaults := CreateDefaultSettings();
    match persisted
    case None => defaults.(isRunning := false)
    case Some(p) =>
      GameSettings(p.fps.GetOr(defaults.fps), p.simulationSpeed.GetOr(defaults.simulationSpeed),
                   StoredType(p.player1Type, defaults.player1Type), StoredType(p.player2Type, defaults.player2Type),
                   false)
  }

  /** Persisting settings and loading them again restores them, except that the game is paused. */
  lemma PersistedSettingsComeBackPaused(s: GameSettings)
    ensures InitialSettings(Some(PersistedSettings(Some(s.fps), Some(s.simulationSpeed), Some(PlayerTypeValue(s.player1Type)),
                                                   Some(PlayerTypeValue(s.player2Type)), Some(s.isRunning))))
            == s.(isRunning := false)
  {
  }

  class SettingsStore {
    var settings: GameSettings

    constructor (persisted: Option<PersistedSettings>)
      ensures settings == InitialSettings(persisted)
    {
      settings := InitialSettings(persisted);
    }

    /** `setSettings(updater)`: applies an updater function, or replaces the value. */
    method SetSettings(updater: Updater<GameSettings>)
      modifies this`settings
      ensures settings == ApplyUpdater(updater, old(settings))
      ensures updater.Replace? ==> settings == updater.value
      ensures updater.Apply? ==> settings == updater.f(old(settings))
    {
      match updater {
        case Apply(f) => settings := f(settings);
        case Replace(v) => settings := v;
      }
    }
  }
}
