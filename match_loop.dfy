/**
 * composables/useMatchUpdate.ts: one animation frame of the match. The
 * frame runs `simulationSpeed` ticks of both fighters, pushes overlapping
 * bodies apart, resolves hits both ways, counts the clock down while
 * FIGHTING, and ends the round on a knock-out or a timeout; afterwards the
 * HUD copies healths, energies and the clock. The value-level functions
 * (`Step`, `Simulate`, `Frame`) are the specification; `Update` is proved
 * to follow them. The restart timeout is the event `RestartTimeoutFired`.
 */
module MatchLoop {
  import opened Wrappers
  import opened Types
  import opened Config
  import opened CombatRules
  import opened GameEngine
  import opened GameStore
  import opened ScriptRunner
  import opened Input
  import opened Session
  import opened MatchLifecycle

  /** The two fighters and the clock, as values. */
  datatype Arena = Arena(p1: FighterData, p2: FighterData, timer: real)

  /** The fighters after the push-apart. */
  datatype Pair = Pair(p1: FighterData, p2: FighterData)

  const TICK_SECONDS: real := 1.0 / 60.0

  // ------------------------------------------------------------- one tick

  predicate VerticalOverlap(p1: FighterData, p2: FighterData) {
    p1.y + p1.height > p2.y && p2.y + p2.height > p1.y
  }

  /** How far the left body reaches into the right one (positive when they overlap). */
  function Penetration(p1: FighterData, p2: FighterData): real {
    if p1.x < p2.x then p1.x + p1.width - p2.x else p2.x + p2.width - p1.x
  }

  /**
   * The push-apart: two bodies that overlap on both axes are moved apart
   * by half the overlap each, so that they just touch; the midpoint and
   * the left-right order are kept, and nothing but `x` changes.
   */
  function Separate(p1: FighterData, p2: FighterData): (r: Pair)
    ensures r.p1 == p1.(x := r.p1.x) && r.p2 == p2.(x := r.p2.x)
    ensures r.p1.x + r.p2.x == p1.x + p2.x
    ensures !(VerticalOverlap(p1, p2) && Penetration(p1, p2) > 0.0) ==> r == Pair(p1, p2)
    ensures VerticalOverlap(p1, p2) && Penetration(p1, p2) > 0.0 && p1.width == p2.width ==>
              Penetration(r.p1, r.p2) == 0.0 && (p1.x < p2.x ==> r.p1.x < r.p2.x)
  {
    if !VerticalOverlap(p1, p2) then Pair(p1, p2)
    else if p1.x < p2.x then
      var overlap := p1.x + p1.width - p2.x;
      if overlap > 0.0 then Pair(p1.(x := p1.x - overlap / 2.0), p2.(x := p2.x + overlap / 2.0)) else Pair(p1, p2)
    else
      var overlap := p2.x + p2.width - p1.x;
      if overlap > 0.0 then Pair(p1.(x := p1.x + overlap / 2.0), p2.(x := p2.x - overlap / 2.0)) else Pair(p1, p2)
  }

  /**
   * One loop iteration on values: both fighters tick on their inputs,
   * overlapping bodies are separated, player 1 strikes and then player 2
   * strikes back, and the clock runs only while FIGHTING.
   */
  function Step(a: Arena, act1: InputState, act2: InputState, fighting: bool): (b: Arena)
    ensures b.timer == if fighting then a.timer - TICK_SECONDS else a.timer
    ensures b.p1.health <= a.p1.health && b.p2.health <= a.p2.health
    ensures a.p1.health >= 0.0 ==> b.p1.health >= 0.0
    ensures a.p2.health >= 0.0 ==> b.p2.health >= 0.0
  {
    var s := Separate(Tick(a.p1, act1), Tick(a.p2, act2));
    var e1 := Strike(s.p1, s.p2);
    var e2 := Strike(e1.defender, e1.attacker);
    Arena(e2.defender, e2.attacker, if fighting then a.timer - TICK_SECONDS else a.timer)
  }

  /** The round is over on a knock-out or when the clock has run out. */
  predicate RoundOver(a: Arena) {
    a.p1.health <= 0.0 || a.p2.health <= 0.0 || a.timer <= 0.0
  }

  /** Up to `k` iterations, stopping after the first one that ends the round. */
  function Simulate(a: Arena, act1: InputState, act2: InputState, fighting: bool, k: nat): Arena
    decreases k, 2
  {
    if k == 0 then a else Continue(a, act1, act2, fighting, k)
  }

  /**
   * The loop's guard has passed and an iteration begins. A level of its own,
   * so that unfolding `Simulate` once does not unfold `Step`.
   */
  function Continue(a: Arena, act1: InputState, act2: InputState, fighting: bool, k: nat): Arena
    requires k > 0
    decreases k, 1
  {
    Iteration(a, act1, act2, fighting, k)
  }

  /** One iteration, then the round is over or the remaining `k - 1` follow. */
  function Iteration(a: Arena, act1: InputState, act2: InputState, fighting: bool, k: nat): Arena
    requires k > 0
    decreases k, 0
  {
    var b := Step(a, act1, act2, fighting);
    if RoundOver(b) then b else Simulate(b, act1, act2, fighting, k - 1)
  }

  /** `for (let i = 0; i < loops; i++)` runs this many times: the ceiling of a positive speed. */
  function Loops(speed: real): (n: nat)
    ensures speed <= 0.0 ==> n == 0
    ensures speed > 0.0 ==> (n as real) - 1.0 < speed <= n as real
  {
    if speed <= 0.0 then 0
    else if speed.Floor as real == speed then speed.Floor
    else speed.Floor + 1
  }

  /** The loop index `i` passes the test `i < loops` exactly for `i < Loops(loops)`. */
  lemma LoopsCountsIterations(speed: real, i: nat)
    ensures (i as real) < speed <==> i < Loops(speed)
  {
  }

  // ------------------------------------------------------- round results

  /** The state written when a round ends; a draw is credited to player 2. */
  function RoundEnd(prev: GameState, p1Won: bool): (s: GameState)
    ensures !s.matchActive && s.roundStatus == ROUND_END
    ensures s.arcadeStats.matchesPlayed == prev.arcadeStats.matchesPlayed + 1
    ensures s.arcadeStats.p1Wins + s.arcadeStats.p2Wins == prev.arcadeStats.p1Wins + prev.arcadeStats.p2Wins + 1
    ensures p1Won <==> s.arcadeStats.p1Wins == prev.arcadeStats.p1Wins + 1
    ensures s == prev.(matchActive := false, roundStatus := ROUND_END, arcadeStats := s.arcadeStats)
  {
    prev.(matchActive := false, roundStatus := ROUND_END,
          arcadeStats := ArcadeStats(prev.arcadeStats.matchesPlayed + 1,
                                     prev.arcadeStats.p1Wins + (if p1Won then 1 else 0),
                                     prev.arcadeStats.p2Wins + (if p1Won then 0 else 1)))
  }

  /** The HUD after a frame: the fighters' healths and energies and the clock, never below 0. */
  function Hud(prev: GameState, a: Arena): (s: GameState)
    ensures s.player1Health == a.p1.health && s.player2Health == a.p2.health
    ensures s.player1Energy == a.p1.energy && s.player2Energy == a.p2.energy
    ensures s.timeRemaining >= 0.0 && (a.timer >= 0.0 ==> s.timeRemaining == a.timer)
    ensures s == prev.(player1Health := s.player1Health, player2Health := s.player2Health,
                       player1Energy := s.player1Energy, player2Energy := s.player2Energy,
                       timeRemaining := s.timeRemaining)
  {
    prev.(player1Health := a.p1.health, player2Health := a.p2.health,
          player1Energy := a.p1.energy, player2Energy := a.p2.energy,
          timeRemaining := Max(0.0, a.timer))
  }

  datatype FrameResult = FrameResult(arena: Arena, state: GameState, ended: bool)

  /**
   * A whole frame of an active, running match outside the countdown, from
   * the state read at its start: an inactive match does not move; a round
   * that ends records the result; the HUD always follows the fighters.
   */
  function Frame(a: Arena, gs: GameState, act1: InputState, act2: InputState, n: nat): (r: FrameResult)
    ensures !gs.matchActive ==> r.arena == a && !r.ended
    ensures gs.matchActive ==> r.arena == Simulate(a, act1, act2, gs.roundStatus == FIGHTING, n)
    ensures r.ended <==> gs.matchActive && n > 0 && RoundOver(r.arena)
    ensures r.ended ==> !r.state.matchActive && r.state.roundStatus == ROUND_END &&
                        r.state.arcadeStats.matchesPlayed == gs.arcadeStats.matchesPlayed + 1
    ensures r.ended && r.arena.p1.health > r.arena.p2.health ==>
              r.state.arcadeStats == ArcadeStats(gs.arcadeStats.matchesPlayed + 1, gs.arcadeStats.p1Wins + 1, gs.arcadeStats.p2Wins)
    ensures r.ended && r.arena.p1.health <= r.arena.p2.health ==>
              r.state.arcadeStats == ArcadeStats(gs.arcadeStats.matchesPlayed + 1, gs.arcadeStats.p1Wins, gs.arcadeStats.p2Wins + 1)
    ensures !r.ended ==> r.state == Hud(gs, r.arena)
    ensures r.state.player1Health == r.arena.p1.health && r.state.player2Health == r.arena.p2.health
  {
    var arena := if gs.matchActive then Simulate(a, act1, act2, gs.roundStatus == FIGHTING, n) else a;
    var ended := gs.matchActive && n > 0 && RoundOver(arena);
    var s := if ended then RoundEnd(gs, arena.p1.health > arena.p2.health) else gs;
    FrameResult(arena, Hud(s, arena), ended)
  }

  // ------------------------------------------------------------ lemmas

  /** One more iteration of a frame, unfolded. */
  lemma SimulateUnfolds(a: Arena, act1: InputState, act2: InputState, fighting: bool, k: nat)
    requires k > 0
    ensures RoundOver(Step(a, act1, act2, fighting)) ==>
              Simulate(a, act1, act2, fighting, k) == Step(a, act1, act2, fighting)
    ensures !RoundOver(Step(a, act1, act2, fighting)) ==>
              Simulate(a, act1, act2, fighting, k) == Simulate(Step(a, act1, act2, fighting), act1, act2, fighting, k - 1)
  {
    assert Simulate(a, act1, act2, fighting, k) == Continue(a, act1, act2, fighting, k)
                                               == Iteration(a, act1, act2, fighting, k);
  }

  /** Health never rises during a frame and never drops below 0. */
  lemma {:induction false} SimulateKeepsHealthInRange(a: Arena, act1: InputState, act2: InputState, fighting: bool, k: nat)
    requires a.p1.health >= 0.0 && a.p2.health >= 0.0
    ensures var r := Simulate(a, act1, act2, fighting, k);
            0.0 <= r.p1.health <= a.p1.health && 0.0 <= r.p2.health <= a.p2.health
    decreases k
  {
    if k > 0 {
      SimulateUnfolds(a, act1, act2, fighting, k);
      var b := Step(a, act1, act2, fighting);
      if !RoundOver(b) {
        SimulateKeepsHealthInRange(b, act1, act2, fighting, k - 1);
      }
    }
  }

  /** Outside FIGHTING the clock is frozen for the whole frame. */
  lemma {:induction false} ClockFrozenOutsideFighting(a: Arena, act1: InputState, act2: InputState, k: nat)
    ensures Simulate(a, act1, act2, false, k).timer == a.timer
    decreases k
  {
    if k > 0 {
      SimulateUnfolds(a, act1, act2, false, k);
      var b := Step(a, act1, act2, false);
      if !RoundOver(b) {
        ClockFrozenOutsideFighting(b, act1, act2, k - 1);
      }
    }
  }

  /** While FIGHTING the clock loses one tick per iteration, at most `k` ticks in all. */
  lemma {:induction false} ClockRunsWhileFighting(a: Arena, act1: InputState, act2: InputState, k: nat)
    ensures var r := Simulate(a, act1, act2, true, k);
            a.timer - (k as real) * TICK_SECONDS <= r.timer <= a.timer
    decreases k
  {
    if k > 0 {
      SimulateUnfolds(a, act1, act2, true, k);
      var b := Step(a, act1, act2, true);
      assert b.timer == a.timer - TICK_SECONDS;
      if !RoundOver(b) {
        ClockRunsWhileFighting(b, act1, act2, k - 1);
      }
    }
  }

  /** The clock guarantees an end: enough FIGHTING iterations to run it down always finish the round. */
  lemma {:induction false} FightingRoundEnds(a: Arena, act1: InputState, act2: InputState, k: nat)
    requires (k as real) * TICK_SECONDS >= a.timer
    ensures RoundOver(Simulate(a, act1, act2, true, k))
    decreases k
  {
    if k > 0 {
      SimulateUnfolds(a, act1, act2, true, k);
      var b := Step(a, act1, act2, true);
      if !RoundOver(b) {
        FightingRoundEnds(b, act1, act2, k - 1);
      }
    }
  }

  /** A frame stops at the first iteration that ends the round. */
  lemma SimulateStopsAtRoundEnd(a: Arena, act1: InputState, act2: InputState, fighting: bool, k: nat)
    requires RoundOver(Step(a, act1, act2, fighting))
    ensures Simulate(a, act1, act2, fighting, k + 1) == Step(a, act1, act2, fighting)
  {
    SimulateUnfolds(a, act1, act2, fighting, k + 1);
  }

  // ------------------------------------------------------------ the frame

  /** The fighters and the clock as values. */
  function ArenaOf(m: Match, timer: real): Arena
    reads m.p1, m.p2
  {
    Arena(m.p1.Data(), m.p2.Data(), timer)
  }

  /**
   * Player 1's polled input: the input manager's state for a human
   * fighter, the all-false input for a script fighter or without a manager,
   * and always all-false while WAITING.
   */
  function P1Input(isHuman: bool, manager: InputManager?, pads: seq<Option<Gamepad>>, status: RoundStatus): (r: InputState)
    reads manager
    ensures status == WAITING || !isHuman || manager == null ==> r == NEUTRAL
    ensures status != WAITING && isHuman && manager != null ==> r == manager.GetState(pads)
  {
    if status == WAITING then NEUTRAL
    else if isHuman && manager != null then manager.GetState(pads)
    else NEUTRAL
  }

  /** `clearMatchRestartTimeout()`. */
  method ClearMatchRestartTimeout(ctx: MatchContext)
    modifies ctx`restartPending
    ensures !ctx.restartPending
  {
    ctx.restartPending := false;
  }

  /** The pending restart fires: a new round starts and the timeout is gone. */
  method RestartTimeoutFired(ctx: MatchContext, spawnOffset: real)
    requires ctx.restartPending
    requires -SPAWN_JITTER <= spawnOffset < SPAWN_JITTER
    modifies ctx`activeMatch, ctx`countdown, ctx`restartPending, ctx.store`gameState, ctx.store`matchTimer
    ensures !ctx.restartPending && ctx.Valid() && ctx.activeMatch.Some?
    ensures fresh(ctx.activeMatch.value.p1) && fresh(ctx.activeMatch.value.p2)
    ensures ctx.store.matchTimer == MATCH_DURATION && ctx.store.gameState.matchActive
    ensures ctx.store.gameState.arcadeStats == old(ctx.store.gameState.arcadeStats)
    ensures MatchStarted(ctx, spawnOffset)
  {
    StartMatch(ctx, spawnOffset);
    ctx.restartPending := false;
  }

  /** Both fighters' `update`: player 1 on `p1Input`, player 2 on the all-false input. */
  method UpdateBoth(m: Match, p1Input: InputState)
    requires m.p1 != m.p2
    modifies m.p1, m.p2, m.p1.scriptWorker, m.p2.scriptWorker
    ensures m.p1.scriptWorker == old(m.p1.scriptWorker) && m.p2.scriptWorker == old(m.p2.scriptWorker)
    ensures ScriptDecision(m.p1.scriptWorker) == old(ScriptDecision(m.p1.scriptWorker))
    ensures ScriptDecision(m.p2.scriptWorker) == old(ScriptDecision(m.p2.scriptWorker))
    ensures OnlyPostedChanged(m.p1.scriptWorker) && OnlyPostedChanged(m.p2.scriptWorker)
    ensures m.p1.Data() == Tick(old(m.p1.Data()), ActiveInput(p1Input, m.p1.isCustom, old(ScriptDecision(m.p1.scriptWorker))))
    ensures m.p2.Data() == Tick(old(m.p2.Data()), ActiveInput(NEUTRAL, m.p2.isCustom, old(ScriptDecision(m.p2.scriptWorker))))
  {
    var w1, w2 := m.p1.scriptWorker, m.p2.scriptWorker;
    ghost var d2 := ScriptDecision(w2);
    m.p1.Update(p1Input, m.p2);
    assert ScriptDecision(w1) == old(ScriptDecision(w1));
    assert ScriptDecision(w2) == d2;
    ghost var p1Data := m.p1.Data();
    m.p2.Update(NEUTRAL, m.p1);
    assert m.p1.Data() == p1Data;
    assert ScriptDecision(w1) == old(ScriptDecision(w1));
  }

  /** The push-apart on the two fighters. */
  method PushApart(m: Match)
    requires m.p1 != m.p2
    modifies m.p1`x, m.p2`x
    ensures Pair(m.p1.Data(), m.p2.Data()) == Separate(old(m.p1.Data()), old(m.p2.Data()))
  {
    var p1, p2 := m.p1, m.p2;
    var verticalOverlap := (p1.y + p1.height > p2.y) && (p2.y + p2.height > p1.y);
    if verticalOverlap {
      if p1.x < p2.x {
        var overlap := (p1.x + p1.width) - p2.x;
        if overlap > 0.0 {
          p1.x := p1.x - overlap / 2.0;
          p2.x := p2.x + overlap / 2.0;
        }
      } else {
        var overlap := (p2.x + p2.width) - p1.x;
        if overlap > 0.0 {
          p2.x := p2.x - overlap / 2.0;
          p1.x := p1.x + overlap / 2.0;
        }
      }
    }
  }

  /** One loop iteration on the fighters and the clock. */
  method PlayTick(ctx: MatchContext, m: Match, p1Input: InputState, fighting: bool)
    requires m.p1 != m.p2
    modifies m.p1, m.p2, m.p1.scriptWorker, m.p2.scriptWorker, ctx.store`matchTimer
    ensures m.p1.scriptWorker == old(m.p1.scriptWorker) && m.p2.scriptWorker == old(m.p2.scriptWorker)
    ensures ScriptDecision(m.p1.scriptWorker) == old(ScriptDecision(m.p1.scriptWorker))
    ensures ScriptDecision(m.p2.scriptWorker) == old(ScriptDecision(m.p2.scriptWorker))
    ensures OnlyPostedChanged(m.p1.scriptWorker) && OnlyPostedChanged(m.p2.scriptWorker)
    ensures ArenaOf(m, ctx.store.matchTimer) ==
            Step(old(ArenaOf(m, ctx.store.matchTimer)),
                 ActiveInput(p1Input, m.p1.isCustom, old(ScriptDecision(m.p1.scriptWorker))),
                 ActiveInput(NEUTRAL, m.p2.isCustom, old(ScriptDecision(m.p2.scriptWorker))),
                 fighting)
  {
    UpdateBoth(m, p1Input);
    PushApart(m);
    m.p1.CheckHit(m.p2);
    m.p2.CheckHit(m.p1);
    if fighting {
      ctx.store.matchTimer := ctx.store.matchTimer - 1.0 / 60.0;
    }
  }

  /** The inputs the two fighters act on this frame. */
  function Act1(ctx: MatchContext, m: Match, pads: seq<Option<Gamepad>>): InputState
    reads ctx, ctx.inputManager, ctx.store, m.p1, m.p1.scriptWorker
  {
    ActiveInput(P1Input(!m.p1.isCustom, ctx.inputManager, pads, ctx.store.gameState.roundStatus),
                m.p1.isCustom, ScriptDecision(m.p1.scriptWorker))
  }

  function Act2(m: Match): InputState
    reads m.p2, m.p2.scriptWorker
  {
    ActiveInput(NEUTRAL, m.p2.isCustom, ScriptDecision(m.p2.scriptWorker))
  }

  /** The loop's bookkeeping: after an iteration that does not end the round, the rest of the frame is the rest of the simulation. */
  lemma SimulateAdvances(cur: Arena, next: Arena, act1: InputState, act2: InputState, fighting: bool, rest: nat, target: Arena)
    requires rest > 0 && next == Step(cur, act1, act2, fighting)
    requires Simulate(cur, act1, act2, fighting, rest) == target
    ensures RoundOver(next) ==> next == target
    ensures !RoundOver(next) ==> Simulate(next, act1, act2, fighting, rest - 1) == target
  {
    SimulateUnfolds(cur, act1, act2, fighting, rest);
  }

  /** A knock-out or timeout: the result is recorded and the restart is scheduled. */
  method EndRound(ctx: MatchContext, m: Match)
    modifies ctx`restartPending, ctx.store`gameState
    ensures ctx.store.gameState == RoundEnd(old(ctx.store.gameState), m.p1.health > m.p2.health)
    ensures ctx.restartPending
  {
    var p1Won := m.p1.health > m.p2.health;
    ctx.store.SetGameState(Apply((prev: GameState) => RoundEnd(prev, p1Won)));
    ClearMatchRestartTimeout(ctx);
    ctx.restartPending := true;
  }

  /**
   * One iteration with its end check: the round ends exactly when the
   * iteration leaves it over.
   */
  method Iterate(ctx: MatchContext, m: Match, p1Input: InputState, fighting: bool) returns (ended: bool)
    requires m.p1 != m.p2
    modifies ctx`restartPending, ctx.store`gameState, ctx.store`matchTimer, m.p1, m.p2, m.p1.scriptWorker, m.p2.scriptWorker
    ensures m.p1.scriptWorker == old(m.p1.scriptWorker) && m.p2.scriptWorker == old(m.p2.scriptWorker)
    ensures ScriptDecision(m.p1.scriptWorker) == old(ScriptDecision(m.p1.scriptWorker))
    ensures ScriptDecision(m.p2.scriptWorker) == old(ScriptDecision(m.p2.scriptWorker))
    ensures OnlyPostedChanged(m.p1.scriptWorker) && OnlyPostedChanged(m.p2.scriptWorker)
    ensures var b := Step(old(ArenaOf(m, ctx.store.matchTimer)),
                          ActiveInput(p1Input, m.p1.isCustom, old(ScriptDecision(m.p1.scriptWorker))),
                          ActiveInput(NEUTRAL, m.p2.isCustom, old(ScriptDecision(m.p2.scriptWorker))),
                          fighting);
            ArenaOf(m, ctx.store.matchTimer) == b && (ended <==> RoundOver(b)) &&
            ctx.store.gameState == (if ended then RoundEnd(old(ctx.store.gameState), b.p1.health > b.p2.health) else old(ctx.store.gameState)) &&
            ctx.restartPending == (ended || old(ctx.restartPending))
  {
    PlayTick(ctx, m, p1Input, fighting);
    var isTimeout := ctx.store.matchTimer <= 0.0;
    var isKO := m.p1.health <= 0.0 || m.p2.health <= 0.0;
    ended := isKO || isTimeout;
    if ended {
      EndRound(ctx, m);
    }
  }

  /**
   * `Iterate` seen from the loop: when the rest of the frame from `cur` is
   * `target`, after this iteration either the round is over at `target`
   * or the rest of the frame from the new arena is still `target`.
   */
  method IterateTracked(ctx: MatchContext, m: Match, p1Input: InputState, fighting: bool,
                        ghost cur: Arena, ghost act1: InputState, ghost act2: InputState, ghost rest: nat, ghost target: Arena)
    returns (ended: bool, ghost next: Arena)
    requires m.p1 != m.p2 && rest > 0
    requires ArenaOf(m, ctx.store.matchTimer) == cur
    requires act1 == ActiveInput(p1Input, m.p1.isCustom, ScriptDecision(m.p1.scriptWorker))
    requires act2 == ActiveInput(NEUTRAL, m.p2.isCustom, ScriptDecision(m.p2.scriptWorker))
    requires Simulate(cur, act1, act2, fighting, rest) == target
    modifies ctx`restartPending, ctx.store`gameState, ctx.store`matchTimer, m.p1, m.p2, m.p1.scriptWorker, m.p2.scriptWorker
    ensures m.p1.scriptWorker == old(m.p1.scriptWorker) && m.p2.scriptWorker == old(m.p2.scriptWorker)
    ensures ScriptDecision(m.p1.scriptWorker) == old(ScriptDecision(m.p1.scriptWorker))
    ensures ScriptDecision(m.p2.scriptWorker) == old(ScriptDecision(m.p2.scriptWorker))
    ensures OnlyPostedChanged(m.p1.scriptWorker) && OnlyPostedChanged(m.p2.scriptWorker)
    ensures ArenaOf(m, ctx.store.matchTimer) == next && (ended <==> RoundOver(next))
    ensures ended ==> next == target
    ensures !ended ==> Simulate(next, act1, act2, fighting, rest - 1) == target
    ensures ctx.store.gameState == (if ended then RoundEnd(old(ctx.store.gameState), next.p1.health > next.p2.health) else old(ctx.store.gameState))
    ensures ctx.restartPending == (ended || old(ctx.restartPending))
  {
    ended := Iterate(ctx, m, p1Input, fighting);
    next := ArenaOf(m, ctx.store.matchTimer);
    SimulateAdvances(cur, next, act1, act2, fighting, rest, target);
  }

  /**
   * The loop of a frame: up to `Loops(loops)` iterations, ending the round
   * when one calls for it. `currentGameState` is the state read when the
   * frame began and `p1Input` player 1's polled input; `act1`, `act2` are
   * the inputs the fighters act on and `target` is where the whole frame leads.
   */
  method TickLoop(ctx: MatchContext, m: Match, p1Input: InputState, currentGameState: GameState, loops: real,
                  ghost act1: InputState, ghost act2: InputState, ghost target: Arena)
    returns (matchEnded: bool, ghost last: Arena)
    requires m.p1 != m.p2
    requires ctx.store.gameState == currentGameState
    requires act1 == ActiveInput(p1Input, m.p1.isCustom, ScriptDecision(m.p1.scriptWorker))
    requires act2 == ActiveInput(NEUTRAL, m.p2.isCustom, ScriptDecision(m.p2.scriptWorker))
    requires target == Simulate(ArenaOf(m, ctx.store.matchTimer), act1, act2, currentGameState.roundStatus == FIGHTING, Loops(loops))
    modifies ctx`restartPending, ctx.store`gameState, ctx.store`matchTimer, m.p1, m.p2, m.p1.scriptWorker, m.p2.scriptWorker
    ensures ArenaOf(m, ctx.store.matchTimer) == last
    ensures currentGameState.matchActive ==> last == target
    ensures !currentGameState.matchActive ==> last == old(ArenaOf(m, ctx.store.matchTimer))
    ensures matchEnded <==> currentGameState.matchActive && Loops(loops) > 0 && RoundOver(last)
    ensures ctx.store.gameState == (if matchEnded then RoundEnd(currentGameState, last.p1.health > last.p2.health) else currentGameState)
    ensures ctx.restartPending == (matchEnded || old(ctx.restartPending))
    ensures m.p1.scriptWorker == old(m.p1.scriptWorker) && m.p2.scriptWorker == old(m.p2.scriptWorker)
    ensures OnlyPostedChanged(m.p1.scriptWorker) && OnlyPostedChanged(m.p2.scriptWorker)
  {
    ghost var n := Loops(loops);
    matchEnded := false;
    var fighting := currentGameState.roundStatus == FIGHTING;
    ghost var w1, w2 := m.p1.scriptWorker, m.p2.scriptWorker;
    ghost var pending := ctx.restartPending;
    last := ArenaOf(m, ctx.store.matchTimer);
    ghost var a0 := last;
    var i := 0;
    LoopsCountsIterations(loops, i);
    while (i as real) < loops
      invariant 0 <= i <= n
      invariant !matchEnded
      invariant m.p1.scriptWorker == w1 && m.p2.scriptWorker == w2
      invariant OnlyPostedChanged(w1) && OnlyPostedChanged(w2)
      invariant act1 == ActiveInput(p1Input, m.p1.isCustom, ScriptDecision(m.p1.scriptWorker))
      invariant act2 == ActiveInput(NEUTRAL, m.p2.isCustom, ScriptDecision(m.p2.scriptWorker))
      invariant ctx.store.gameState == currentGameState && ctx.restartPending == pending
      invariant ArenaOf(m, ctx.store.matchTimer) == last
      invariant !currentGameState.matchActive ==> last == a0
      invariant 0 < i ==> !RoundOver(last)
      invariant Simulate(last, act1, act2, fighting, n - i) == target
      invariant (i as real) < loops <==> i < n
      decreases n - i
    {
      if !currentGameState.matchActive || matchEnded {
        break;
      }
      matchEnded, last := IterateTracked(ctx, m, p1Input, fighting, last, act1, act2, n - i, target);
      if matchEnded {
        break;
      }
      i := i + 1;
      LoopsCountsIterations(loops, i);
    }
  }

  /** The HUD copies healths, energies and the clock when any of them changed. */
  method UpdateHud(ctx: MatchContext, m: Match)
    modifies ctx.store`gameState
    ensures ctx.store.gameState == Hud(old(ctx.store.gameState), ArenaOf(m, ctx.store.matchTimer))
  {
    var newArena := ArenaOf(m, ctx.store.matchTimer);
    var currentState := ctx.store.gameState;
    var newTime := Max(0.0, ctx.store.matchTimer);
    if currentState.player1Health != newArena.p1.health || currentState.player2Health != newArena.p2.health ||
       currentState.player1Energy != newArena.p1.energy || currentState.player2Energy != newArena.p2.energy ||
       currentState.timeRemaining != newTime
    {
      ctx.store.SetGameState(Apply((prev: GameState) => Hud(prev, newArena)));
    }
  }

  /** Player 1's input for this frame, read from the input manager. */
  method PollP1Input(ctx: MatchContext, m: Match, pads: seq<Option<Gamepad>>, status: RoundStatus) returns (p1Input: InputState)
    ensures p1Input == P1Input(!m.p1.isCustom, ctx.inputManager, pads, status)
  {
    var isP1Human := !m.p1.isCustom;
    p1Input := if isP1Human && ctx.inputManager != null then ctx.inputManager.GetState(pads) else NEUTRAL;
    if status == WAITING {
      p1Input := NEUTRAL;
    }
  }

  /** What the loop and the HUD update leave behind is the frame `Frame` describes. */
  lemma FrameFromLoop(a0: Arena, gs: GameState, act1: InputState, act2: InputState, n: nat, last: Arena, ended: bool, s: GameState)
    requires gs.matchActive ==> last == Simulate(a0, act1, act2, gs.roundStatus == FIGHTING, n)
    requires !gs.matchActive ==> last == a0
    requires ended <==> gs.matchActive && n > 0 && RoundOver(last)
    requires s == Hud(if ended then RoundEnd(gs, last.p1.health > last.p2.health) else gs, last)
    ensures Frame(a0, gs, act1, act2, n) == FrameResult(last, s, ended)
  {
  }

  /**
   * The iterations of an active, running match outside the countdown, and
   * the HUD update after them.
   */
  method RunFrame(ctx: MatchContext, m: Match, pads: seq<Option<Gamepad>>)
    requires m.p1 != m.p2
    modifies ctx`restartPending, ctx.store, m.p1, m.p2, m.p1.scriptWorker, m.p2.scriptWorker
    ensures var r := Frame(old(ArenaOf(m, ctx.store.matchTimer)), old(ctx.store.gameState),
                           old(Act1(ctx, m, pads)), old(Act2(m)), Loops(ctx.settings.settings.simulationSpeed));
            ArenaOf(m, ctx.store.matchTimer) == r.arena && ctx.store.gameState == r.state &&
            ctx.restartPending == (r.ended || old(ctx.restartPending))
    ensures m.p1.scriptWorker == old(m.p1.scriptWorker) && m.p2.scriptWorker == old(m.p2.scriptWorker)
    ensures OnlyPostedChanged(m.p1.scriptWorker) && OnlyPostedChanged(m.p2.scriptWorker)
  {
    var currentSettings := ctx.settings.settings;
    var currentGameState := ctx.store.gameState;
    ghost var a0 := ArenaOf(m, ctx.store.matchTimer);
    ghost var n := Loops(currentSettings.simulationSpeed);
    ghost var act1, act2 := Act1(ctx, m, pads), Act2(m);
    ghost var target := Simulate(a0, act1, act2, currentGameState.roundStatus == FIGHTING, n);
    var p1Input := PollP1Input(ctx, m, pads, currentGameState.roundStatus);
    var matchEnded;
    ghost var last;
    matchEnded, last := TickLoop(ctx, m, p1Input, currentGameState, currentSettings.simulationSpeed, act1, act2, target);
    UpdateHud(ctx, m);
    FrameFromLoop(a0, currentGameState, act1, act2, n, last, matchEnded, ctx.store.gameState);
  }

  /**
   * `update()`: without a match a new one starts; while paused or in the
   * COUNTDOWN nothing moves; otherwise the frame runs as `Frame` says.
   */
  method Update(ctx: MatchContext, pads: seq<Option<Gamepad>>, spawnOffset: real)
    requires ctx.Valid()
    requires -SPAWN_JITTER <= spawnOffset < SPAWN_JITTER
    modifies ctx, ctx.store, ctx.MatchObjects()
    ensures ctx.Valid() && ctx.activeMatch.Some?
    ensures old(ctx.activeMatch).None? ==>
              fresh(ctx.activeMatch.value.p1) && fresh(ctx.activeMatch.value.p2) &&
              ctx.store.matchTimer == MATCH_DURATION && ctx.store.gameState.matchActive
    ensures old(ctx.activeMatch).None? ==>
              MatchStarted(ctx, spawnOffset) &&
              ctx.restartPending == old(ctx.restartPending) && ctx.inputManager == old(ctx.inputManager)
    ensures old(ctx.activeMatch).Some? && (!old(ctx.settings.settings.isRunning) || old(ctx.store.gameState.roundStatus) == COUNTDOWN) ==>
              unchanged(ctx, ctx.store, old(ctx.activeMatch.value.p1), old(ctx.activeMatch.value.p2))
    ensures old(ctx.activeMatch).Some? && old(ctx.settings.settings.isRunning) && old(ctx.store.gameState.roundStatus) != COUNTDOWN ==>
              var m := old(ctx.activeMatch.value);
              var r := Frame(old(ArenaOf(m, ctx.store.matchTimer)), old(ctx.store.gameState),
                             old(Act1(ctx, m, pads)), old(Act2(m)), Loops(ctx.settings.settings.simulationSpeed));
              ctx.activeMatch == Some(m) && ArenaOf(m, ctx.store.matchTimer) == r.arena &&
              ctx.store.gameState == r.state && ctx.restartPending == (r.ended || old(ctx.restartPending)) &&
              ctx.countdown == old(ctx.countdown) && ctx.inputManager == old(ctx.inputManager) &&
              m.p1.scriptWorker == old(m.p1.scriptWorker) && m.p2.scriptWorker == old(m.p2.scriptWorker) &&
              OnlyPostedChanged(m.p1.scriptWorker) && OnlyPostedChanged(m.p2.scriptWorker)
  {
    if ctx.activeMatch.None? {
      StartMatch(ctx, spawnOffset);
      return;
    }
    if !ctx.settings.settings.isRunning {
      return;
    }
    if ctx.store.gameState.roundStatus == COUNTDOWN {
      return;
    }
    RunFrame(ctx, ctx.activeMatch.value, pads);
  }
}
