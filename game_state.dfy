/**
 * composables/useGameState.ts: the HUD game state and the match clock, with
 * their defaults and setters. The `gameStateRef` mirror that a watcher keeps
 * in step with the state is not a separate field: the model reads the state itself.
 */
module GameStore {
  import opened Wrappers
  import opened Types
  import opened Config

  /** `createDefaultGameState()`. */
  function CreateDefaultGameState(): (s: GameState)
    ensures s.player1Health == 100.0 && s.player2Health == 100.0
    ensures s.player1Energy == ENERGY_MAX && s.player2Energy == ENERGY_MAX
    ensures s.timeRemaining == MATCH_DURATION && !s.matchActive && s.winner.None?
    ensures s.roundStatus == WAITING && s.arcadeStats == ArcadeStats(0, 0, 0) && s.countdownValue.None?
  {
    GameState(100.0, 100.0, ENERGY_MAX, ENERGY_MAX, MATCH_DURATION, false, None, WAITING, ArcadeStats(0, 0, 0), None)
  }

  class GameStateStore {
    var gameState: GameState
    /** Seconds left in the round; the loop counts it down. */
    var matchTimer: real

    constructor ()
      ensures gameState == CreateDefaultGameState() && matchTimer == MATCH_DURATION
    {
      gameState := CreateDefaultGameState();
      matchTimer := MATCH_DURATION;
    }

    /** `resetMatchTimer()`. */
    method ResetMatchTimer()
      modifies this`matchTimer
      ensures matchTimer == MATCH_DURATION
    {
      matchTimer := MATCH_DURATION;
    }

    /** `setGameState(updater)`: applies an updater function, or replaces the state. */
    method SetGameState(updater: Updater<GameState>)
      modifies this`gameState
      ensures gameState == ApplyUpdater(updater, old(gameState))
      ensures updater.Replace? ==> gameState == updater.value
      ensures updater.Apply? ==> gameState == updater.f(old(gameState))
    {
      match updater {
        case Apply(f) => gameState := f(gameState);
        case Replace(v) => gameState := v;
      }
    }
  }
}
