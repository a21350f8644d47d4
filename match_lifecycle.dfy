/**
 * composables/useMatchSetup.ts: spawning a round and the countdown that
 * starts it. The interval's callback is the event `CountdownTick`;
 * `Math.random` is the `spawnOffset` argument.
 */
module MatchLifecycle {
  import opened Wrappers
  import opened Types
  import opened Config
  import opened CombatRules
  import opened GameEngine
  import opened GameStore
  import opened MatchFactory
  import opened Session

  const P1_SPAWN_X: real := 280.0
  const P2_SPAWN_X: real := 470.0
  const SPAWN_JITTER: real := 30.0
  const COUNTDOWN_START: int := 3
  const FAST_INTERVAL_MS: int := 233
  const SLOW_INTERVAL_MS: int := 700

  /** The step of the countdown: three times faster after the first round. */
  function CountdownInterval(fast: bool): (ms: int)
    ensures ms == if fast then FAST_INTERVAL_MS else SLOW_INTERVAL_MS
    ensures ms > 0
  {
    if fast then FAST_INTERVAL_MS else SLOW_INTERVAL_MS
  }

  /** The state `startMatch` writes: an active round waiting for its countdown. */
  function RoundStarted(prev: GameState): (s: GameState)
    ensures s.matchActive && s.timeRemaining == MATCH_DURATION && s.winner.None?
    ensures s.roundStatus == WAITING && s.countdownValue.None?
    ensures s.arcadeStats == prev.arcadeStats
    ensures s.player1Health == prev.player1Health && s.player2Health == prev.player2Health
  {
    prev.(matchActive := true, timeRemaining := MATCH_DURATION, winner := None, roundStatus := WAITING, countdownValue := None)
  }

  /** The state `startCountdown` writes. */
  function CountdownShown(prev: GameState): (s: GameState)
    ensures s.roundStatus == COUNTDOWN && s.countdownValue == Some(COUNTDOWN_START)
    ensures s == prev.(roundStatus := s.roundStatus, countdownValue := s.countdownValue)
  {
    prev.(roundStatus := COUNTDOWN, countdownValue := Some(COUNTDOWN_START))
  }

  /** The game state and the live interval between countdown ticks. */
  datatype CountdownState = CountdownState(state: GameState, interval: Option<Countdown>)

  /**
   * One interval tick: the captured count drops by one; 2, 1 and 0 are
   * shown; below 0 the round starts FIGHTING and the interval is cleared.
   */
  function TickOnce(s: GameState, c: Countdown): (r: CountdownState)
    ensures c.count - 1 >= 0 ==>
              r == CountdownState(s.(countdownValue := Some(c.count - 1)), Some(c.(count := c.count - 1)))
    ensures c.count - 1 < 0 ==>
              r == CountdownState(s.(roundStatus := FIGHTING, countdownValue := None), None)
  {
    var count := c.count - 1;
    if count > 0 then CountdownState(s.(countdownValue := Some(count)), Some(c.(count := count)))
    else if count == 0 then CountdownState(s.(countdownValue := Some(0)), Some(c.(count := count)))
    else CountdownState(s.(roundStatus := FIGHTING, countdownValue := None), None)
  }

  /** `k` interval ticks; a cleared interval fires no more. */
  function AfterTicks(cs: CountdownState, k: nat): CountdownState
    decreases k
  {
    if k == 0 || cs.interval.None? then cs
    else AfterTicks(TickOnce(cs.state, cs.interval.value), k - 1)
  }

  /**
   * From a fresh countdown, the ticks show 2, 1 and 0; the fourth starts
   * the fight and clears the interval, and later ticks change nothing.
   */
  lemma CountdownSequence(s: GameState, intervalMs: int, extra: nat)
    ensures var start := CountdownState(CountdownShown(s), Some(Countdown(COUNTDOWN_START, intervalMs)));
            AfterTicks(start, 1).state.countdownValue == Some(2) &&
            AfterTicks(start, 2).state.countdownValue == Some(1) &&
            AfterTicks(start, 3).state == CountdownShown(s).(countdownValue := Some(0)) &&
            AfterTicks(start, 4 + extra) == CountdownState(s.(roundStatus := FIGHTING, countdownValue := None), None)
  {
    var start := CountdownState(CountdownShown(s), Some(Countdown(COUNTDOWN_START, intervalMs)));
    var c1 := TickOnce(start.state, start.interval.value);
    var c2 := TickOnce(c1.state, c1.interval.value);
    var c3 := TickOnce(c2.state, c2.interval.value);
    var c4 := TickOnce(c3.state, c3.interval.value);
    assert AfterTicks(start, 4 + extra) == AfterTicks(c1, 3 + extra) == AfterTicks(c2, 2 + extra)
        == AfterTicks(c3, 1 + extra) == AfterTicks(c4, extra);
    assert c4.interval.None?;
  }

  /** `clearCountdownInterval()`. */
  method ClearCountdownInterval(ctx: MatchContext)
    modifies ctx`countdown
    ensures ctx.countdown.None?
  {
    ctx.countdown := None;
  }

  /**
   * `startCountdown(fast)`: any earlier interval is replaced, so at most one
   * is live; the HUD shows 3 in COUNTDOWN.
   */
  method StartCountdown(ctx: MatchContext, fast: bool)
    modifies ctx`countdown, ctx.store`gameState
    ensures ctx.countdown == Some(Countdown(COUNTDOWN_START, CountdownInterval(fast)))
    ensures ctx.store.gameState == CountdownShown(old(ctx.store.gameState))
  {
    ClearCountdownInterval(ctx);
    var count := COUNTDOWN_START;
    var interval := if fast then FAST_INTERVAL_MS else SLOW_INTERVAL_MS;
    ctx.store.SetGameState(Apply((prev: GameState) => prev.(roundStatus := COUNTDOWN, countdownValue := Some(COUNTDOWN_START))));
    ctx.countdown := Some(Countdown(count, interval));
  }

  /** The countdown interval fires. */
  method CountdownTick(ctx: MatchContext)
    requires ctx.countdown.Some?
    modifies ctx`countdown, ctx.store`gameState
    ensures CountdownState(ctx.store.gameState, ctx.countdown) ==
            TickOnce(old(ctx.store.gameState), old(ctx.countdown.value))
  {
    var count := ctx.countdown.value.count - 1;
    ctx.countdown := Some(ctx.countdown.value.(count := count));
    if count > 0 {
      ctx.store.SetGameState(Apply((prev: GameState) => prev.(countdownValue := Some(count))));
    } else if count == 0 {
      ctx.store.SetGameState(Apply((prev: GameState) => prev.(countdownValue := Some(0))));
    } else {
      ClearCountdownInterval(ctx);
      ctx.store.SetGameState(Apply((prev: GameState) => prev.(roundStatus := FIGHTING, countdownValue := None)));
    }
  }

  /** How a player type binds a new fighter to the script slots. */
  predicate BoundAs(f: Fighter, playerType: PlayerType, workers: ScriptWorkers)
    reads f
  {
    match playerType
    case HUMAN => !f.isCustom && f.scriptWorker == null
    case CUSTOM_A => f.isCustom && f.scriptWorker == workers.workerA
    case CUSTOM_B => f.isCustom && f.scriptWorker == workers.workerB
    case Unrecognised(_) => !f.isCustom && f.scriptWorker == null
  }

  /** The two fighters of a new round, bound to the script slots their player types name. */
  method SpawnFighters(ctx: MatchContext, spawnOffset: real) returns (f1: Fighter, f2: Fighter)
    ensures fresh(f1) && fresh(f2) && f1 != f2
    ensures f1.Data() == Spawned(P1_SPAWN_X + spawnOffset)
    ensures f2.Data() == Spawned(P2_SPAWN_X - spawnOffset).(direction := -1)
    ensures BoundAs(f1, ctx.settings.settings.player1Type, ScriptWorkers(ctx.slots.workerA, ctx.slots.workerB))
    ensures BoundAs(f2, ctx.settings.settings.player2Type, ScriptWorkers(ctx.slots.workerA, ctx.slots.workerB))
  {
    var workers := ScriptWorkers(ctx.slots.workerA, ctx.slots.workerB);
    var p1Type := ctx.settings.settings.player1Type;
    var p2Type := ctx.settings.settings.player2Type;
    f1 := CreateFighter(p1Type, P1_SPAWN_X + spawnOffset, workers);
    f2 := CreateFighter(p2Type, P2_SPAWN_X - spawnOffset, workers);
    f2.direction := -1;
  }

  /**
   * What `startMatch()` leaves behind: two new fighters spawned
   * symmetrically about x = 375 (player 2 facing left) and bound to the
   * slots their player types name, a full clock, and the round open in
   * WAITING; if the game is running the countdown is on screen and its
   * interval live, fast iff a match has been played before.
   */
  twostate predicate MatchStarted(ctx: MatchContext, spawnOffset: real)
    reads ctx, ctx.store, ctx.settings, ctx.slots,
          if ctx.activeMatch.Some? then {ctx.activeMatch.value.p1, ctx.activeMatch.value.p2} else {}
  {
    && ctx.Valid() && ctx.activeMatch.Some?
    && (var m := ctx.activeMatch.value;
        && fresh(m.p1) && fresh(m.p2)
        && m.p1.Data() == Spawned(P1_SPAWN_X + spawnOffset)
        && m.p2.Data() == Spawned(P2_SPAWN_X - spawnOffset).(direction := -1)
        && m.p1.x + m.p2.x == P1_SPAWN_X + P2_SPAWN_X
        && BoundAs(m.p1, ctx.settings.settings.player1Type, ScriptWorkers(ctx.slots.workerA, ctx.slots.workerB))
        && BoundAs(m.p2, ctx.settings.settings.player2Type, ScriptWorkers(ctx.slots.workerA, ctx.slots.workerB)))
    && ctx.store.matchTimer == MATCH_DURATION
    && (!ctx.settings.settings.isRunning ==>
          ctx.store.gameState == RoundStarted(old(ctx.store.gameState)) && ctx.countdown.None?)
    && (ctx.settings.settings.isRunning ==>
          ctx.store.gameState == CountdownShown(RoundStarted(old(ctx.store.gameState))) &&
          ctx.countdown == Some(Countdown(COUNTDOWN_START,
                                          CountdownInterval(old(ctx.store.gameState).arcadeStats.matchesPlayed > 0))))
  }

  /**
   * `startMatch()`: cancels the countdown, resets the clock, spawns the two
   * fighters symmetrically about x = 375 (player 2 facing left), and opens
   * the round in WAITING; if the game is running the countdown starts at
   * once, fast after the first round.
   */
  method StartMatch(ctx: MatchContext, spawnOffset: real)
    requires -SPAWN_JITTER <= spawnOffset < SPAWN_JITTER
    modifies ctx`activeMatch, ctx`countdown, ctx.store`gameState, ctx.store`matchTimer
    ensures MatchStarted(ctx, spawnOffset)
  {
    ClearCountdownInterval(ctx);
    ctx.store.matchTimer := MATCH_DURATION;
    var f1, f2 := SpawnFighters(ctx, spawnOffset);
    ctx.activeMatch := Some(Match(f1, f2));
    var shouldStartCountdown := ctx.settings.settings.isRunning;
    var isSubsequentRound := ctx.store.gameState.arcadeStats.matchesPlayed > 0;
    ctx.store.SetGameState(Apply((prev: GameState) => prev.(matchActive := true, timeRemaining := MATCH_DURATION, winner := None,
                                               roundStatus := WAITING, countdownValue := None)));
    if shouldStartCountdown {
      StartCountdown(ctx, isSubsequentRound);
    }
  }
}
