/**
 * The `Fighter` class of services/GameEngine.ts. Its fields are updated in
 * place by the per-frame helpers; each helper is proved to perform exactly
 * the matching step of CombatRules on the fighter's data.
 */
module GameEngine {
  import opened Wrappers
  import opened Types
  import opened Config
  import opened CombatRules
  import opened ScriptTypes
  import opened ScriptWorker
  import opened ScriptRunner

  /** The record a script sees for a fighter. */
  function SnapshotOf(f: FighterData): (s: Snapshot)
    ensures s.x == f.x && s.y == f.y && s.vx == f.vx && s.vy == f.vy
    ensures s.health == f.health && s.energy == f.energy && s.state == f.state.Code()
    ensures s.direction == f.direction && s.cooldown == f.cooldown
    ensures s.width == f.width && s.height == f.height
  {
    Snapshot(f.x, f.y, f.vx, f.vy, f.health, f.energy, f.state.Code(), f.direction, f.cooldown, f.width, f.height)
  }

  /**
   * What a fighter's script worker would hand back this frame: nothing
   * without a worker, the cached decision when it is ready, the all-false
   * input otherwise.
   */
  function ScriptDecision(m: ScriptWorkerManager?): (d: Option<InputState>)
    reads m
    ensures m == null <==> d.None?
    ensures m != null && m.IsReady() ==> d == Some(m.GetAction())
    ensures m != null && !m.IsReady() ==> d == Some(NEUTRAL)
  {
    if m == null then None
    else if m.IsReady() then Some(m.GetAction())
    else Some(NEUTRAL)
  }

  class Fighter {
    var x: real
    var y: real
    var vx: real
    var vy: real
    var width: real
    var height: real
    const color: string
    const isCustom: bool
    var scriptWorker: ScriptWorkerManager?
    var health: real
    var energy: real
    var state: FighterAction
    var direction: Direction
    var hitbox: Option<Hitbox>
    var cooldown: int

    /** The fighter's simulation fields as a value. */
    function Data(): FighterData
      reads this
    {
      FighterData(x, y, vx, vy, width, height, health, energy, state, direction, hitbox, cooldown)
    }

    /** A fighter standing on the ground at `x`, with no worker attached yet. */
    constructor (x: real, color: string, isCustom: bool)
      ensures Data() == Spawned(x)
      ensures this.color == color && this.isCustom == isCustom && scriptWorker == null
    {
      this.x := x;
      vx := 0.0;
      vy := 0.0;
      width := FIGHTER_WIDTH;
      height := FIGHTER_HEIGHT;
      y := GROUND_Y - FIGHTER_HEIGHT;
      this.color := color;
      this.isCustom := isCustom;
      scriptWorker := null;
      health := 100.0;
      energy := ENERGY_MAX;
      state := IDLE;
      direction := 1;
      hitbox := None;
      cooldown := 0;
    }

    /** `handleDeathState`: a dead fighter takes its ragdoll step and reports that it is dead. */
    method HandleDeathState() returns (dead: bool)
      modifies this
      ensures dead <==> !Alive(old(Data()))
      ensures Data() == if dead then DeathStep(old(Data())) else old(Data())
      ensures scriptWorker == old(scriptWorker)
    {
      if health > 0.0 {
        return false;
      }
      y := y + vy;
      vy := vy + GRAVITY;
      if y > GROUND_Y - LYING_HEIGHT {
        y := GROUND_Y - LYING_HEIGHT;
        vx := vx * 0.5;
        vy := 0.0;
      } else {
        x := x + vx;
      }
      return true;
    }

    /** `updateEnergyAndCooldowns`. */
    method UpdateEnergyAndCooldowns()
      modifies this
      ensures Data() == EnergyStep(old(Data()))
      ensures scriptWorker == old(scriptWorker)
    {
      if cooldown > 0 {
        cooldown := cooldown - 1;
      }
      var isIdle := Abs(vx) < 0.5 && state == IDLE;
      var regenRate := if isIdle then REGEN_IDLE else REGEN_ACTIVE;
      if energy < ENERGY_MAX {
        energy := energy + regenRate;
      }
    }

    /** `handleMovementAndStates`: walk, jump, crouch and block, unless animation locked. */
    method HandleMovementAndStates(activeInput: InputState)
      modifies this
      ensures Data() == MovementStep(old(Data()), activeInput)
      ensures scriptWorker == old(scriptWorker)
    {
      var isAnimationLocked := cooldown > 5;
      if isAnimationLocked {
        return;
      }
      MoveHorizontally(activeInput);
      TryJump(activeInput);
      TryCrouch(activeInput);
      TryBlock(activeInput);
    }

    method MoveHorizontally(activeInput: InputState)
      modifies this
      ensures Data() == Walk(old(Data()), activeInput)
      ensures scriptWorker == old(scriptWorker)
    {
      if activeInput.left && energy >= COST_MOVE {
        vx := vx - 1.5;
        energy := energy - COST_MOVE;
        direction := -1;
        state := MOVE_LEFT;
      } else if activeInput.right && energy >= COST_MOVE {
        vx := vx + 1.5;
        energy := energy - COST_MOVE;
        direction := 1;
        state := MOVE_RIGHT;
      } else {
        state := IDLE;
      }
    }

    method TryJump(activeInput: InputState)
      modifies this
      ensures Data() == Jump(old(Data()), activeInput)
      ensures scriptWorker == old(scriptWorker)
    {
      if activeInput.up && y >= GROUND_Y - height - 1.0 && energy >= COST_JUMP {
        vy := -18.0;
        energy := energy - COST_JUMP;
        state := JUMP;
      }
    }

    method TryCrouch(activeInput: InputState)
      modifies this
      ensures Data() == Crouch(old(Data()), activeInput)
      ensures scriptWorker == old(scriptWorker)
    {
      if activeInput.down && y >= GROUND_Y - height - 1.0 && energy >= COST_CROUCH {
        state := CROUCH;
        energy := energy - COST_CROUCH;
        vx := vx * 0.5;
      }
    }

    method TryBlock(activeInput: InputState)
      modifies this
      ensures Data() == Block(old(Data()), activeInput)
      ensures scriptWorker == old(scriptWorker)
    {
      if activeInput.action3 && energy >= COST_BLOCK {
        state := BLOCK;
        energy := energy - COST_BLOCK;
        vx := vx * 0.3;
      }
    }

    /** `handleAttacks`. */
    method HandleAttacks(activeInput: InputState)
      modifies this
      ensures Data() == AttackStep(old(Data()), activeInput)
      ensures scriptWorker == old(scriptWorker)
    {
      if cooldown > 0 {
        return;
      }
      if activeInput.action1 && energy >= COST_PUNCH {
        state := PUNCH;
        vx := vx * 0.2;
        cooldown := ATTACK_COOLDOWN;
        energy := energy - COST_PUNCH;
      } else if activeInput.action2 && energy >= COST_KICK {
        state := KICK;
        vx := vx * 0.2;
        cooldown := ATTACK_COOLDOWN;
        energy := energy - COST_KICK;
      }
    }

    /** `updateHitboxes`. */
    method UpdateHitboxes()
      modifies this
      ensures Data() == HitboxStep(old(Data()))
      ensures scriptWorker == old(scriptWorker)
    {
      hitbox := None;
      if state == PUNCH && cooldown < 15 && cooldown > 5 {
        hitbox := Some(Hitbox(if direction == 1 then x + width else x - 46.0, y + 20.0, 46.0, 20.0));
      } else if state == KICK && cooldown < 15 && cooldown > 5 {
        hitbox := Some(Hitbox(if direction == 1 then x + width else x - 66.0, y + 40.0, 66.0, 30.0));
      }
    }

    /** `updatePhysicsBounding`. */
    method UpdatePhysicsBounding()
      modifies this
      ensures Data() == PhysicsStep(old(Data()))
      ensures scriptWorker == old(scriptWorker)
    {
      x := x + vx;
      y := y + vy;
      vy := vy + GRAVITY;
      vx := vx * FRICTION;
      if y > GROUND_Y - height {
        y := GROUND_Y - height;
        vy := 0.0;
        if state == JUMP {
          state := IDLE;
        }
      }
      if x < 0.0 {
        x := 0.0;
      }
      if x > CANVAS_WIDTH - width {
        x := CANVAS_WIDTH - width;
      }
    }

    /**
     * `processCustom`: the all-false input unless the worker is ready;
     * otherwise it asks the worker for the next decision, with both
     * fighters' current records, and returns the cached one.
     */
    method ProcessCustom(opponent: Fighter) returns (decision: InputState)
      modifies scriptWorker
      ensures scriptWorker == null || !old(scriptWorker.IsReady()) ==> decision == NEUTRAL
      ensures scriptWorker != null && !old(scriptWorker.IsReady()) ==> unchanged(scriptWorker)
      ensures scriptWorker != null && old(scriptWorker.IsReady()) ==>
                decision == old(scriptWorker.GetAction()) &&
                scriptWorker.posted == old(scriptWorker.posted) + [ExecuteRequest(SnapshotOf(Data()), SnapshotOf(opponent.Data()))] &&
                scriptWorker.cachedAction == old(scriptWorker.cachedAction) &&
                scriptWorker.IsReady()
    ensures OnlyPostedChanged(scriptWorker)
    {
      if scriptWorker == null || !scriptWorker.IsReady() {
        return NEUTRAL;
      }
      var selfState := SnapshotOf(Data());
      var opponentState := SnapshotOf(opponent.Data());
      scriptWorker.RequestAction(selfState, opponentState);
      decision := scriptWorker.GetAction();
    }

    /**
     * `update(input, opponent)`: one frame of this fighter. A script-driven
     * fighter with a worker acts on the worker's decision, not on `input`;
     * a dead fighter only takes its ragdoll step and asks its worker nothing.
     */
    method Update(input: InputState, opponent: Fighter)
      modifies this, scriptWorker
      ensures Data() == Tick(old(Data()), ActiveInput(input, isCustom, old(ScriptDecision(scriptWorker))))
      ensures scriptWorker == old(scriptWorker)
      ensures scriptWorker != null && !(Alive(old(Data())) && isCustom && old(scriptWorker.IsReady())) ==>
                unchanged(scriptWorker)
      ensures scriptWorker != null && Alive(old(Data())) && isCustom && old(scriptWorker.IsReady()) ==>
                scriptWorker.posted == old(scriptWorker.posted) + [ExecuteRequest(SnapshotOf(old(Data())), SnapshotOf(old(opponent.Data())))] &&
                scriptWorker.cachedAction == old(scriptWorker.cachedAction) &&
                scriptWorker.IsReady()
    ensures OnlyPostedChanged(scriptWorker)
    {
      var dead := HandleDeathState();
      if dead {
        return;
      }
      var activeInput := input;
      if isCustom && scriptWorker != null {
        activeInput := ProcessCustom(opponent);
      }
      UpdateEnergyAndCooldowns();
      HandleMovementAndStates(activeInput);
      HandleAttacks(activeInput);
      UpdateHitboxes();
      UpdatePhysicsBounding();
    }

    /** `checkHit(opponent)`: applies `Strike` to this fighter and its opponent. */
    method CheckHit(opponent: Fighter)
      requires opponent != this
      modifies this`cooldown, this`hitbox, opponent`health, opponent`energy, opponent`vx, opponent`vy
      ensures Exchange(Data(), opponent.Data()) == Strike(old(Data()), old(opponent.Data()))
    {
      if hitbox.Some? && opponent.health > 0.0 {
        var box := hitbox.value;
        var hit :=
          box.x < opponent.x + opponent.width &&
          box.x + box.w > opponent.x &&
          box.y < opponent.y + opponent.height &&
          box.y + box.h > opponent.y;
        if hit {
          LandHit(opponent);
        }
      }
    }

    /** A connecting hit: counters, damage, knockback, and the consumed hitbox. */
    method LandHit(opponent: Fighter)
      requires opponent != this && Connects(Data(), opponent.Data())
      modifies this`cooldown, this`hitbox, opponent`health, opponent`energy, opponent`vx, opponent`vy
      ensures Exchange(Data(), opponent.Data()) == Strike(old(Data()), old(opponent.Data()))
    {
      ghost var a, d := Data(), opponent.Data();
      ghost var v := Judge(a, d);
      var damage, isPerfectCounter := ResolveCounters(opponent);
      if isPerfectCounter {
        cooldown := cooldown + COUNTER_STUN;
      }
      opponent.TakeHit(damage, (direction as real) * (if state == KICK then 15.0 else 8.0));
      hitbox := None;
      assert Data() == a.(hitbox := None, cooldown := if v.perfectCounter then a.cooldown + COUNTER_STUN else a.cooldown);
      assert opponent.Data() == d.(health := Max(0.0, d.health - v.damage),
                                   energy := if v.penalty then d.energy - PENALTY_HIT else d.energy,
                                   vx := (a.direction as real) * (if a.state == KICK then 15.0 else 8.0),
                                   vy := -5.0);
    }

    /** The defender's side of a hit: damage with health floored at 0, and the knockback. */
    method TakeHit(damage: real, knockback: real)
      modifies this`health, this`vx, this`vy
      ensures health == Max(0.0, old(health) - damage) && vx == knockback && vy == -5.0
    {
      health := Max(0.0, health - damage);
      vx := knockback;
      vy := -5.0;
    }

    /**
     * The damage part of `checkHit`: the facing test, the base damage and
     * the counter table; a partial counter costs the defender the hit penalty.
     */
    method ResolveCounters(opponent: Fighter) returns (damage: real, isPerfectCounter: bool)
      requires opponent != this
      modifies opponent`energy
      ensures var v := Judge(Data(), old(opponent.Data()));
              damage == v.damage && isPerfectCounter == v.perfectCounter &&
              opponent.energy == (if v.penalty then old(opponent.energy) - PENALTY_HIT else old(opponent.energy))
    {
      var attackerToRight := x > opponent.x;
      var defenderFacingAway := (attackerToRight && opponent.direction == -1) ||
                                (!attackerToRight && opponent.direction == 1);
      damage := if state == PUNCH then 5.0 else 10.0;
      isPerfectCounter := false;
      var defenderFacingAttacker := !defenderFacingAway;
      if defenderFacingAttacker && opponent.state == BLOCK {
        if state == PUNCH {
          damage := 0.0;
          isPerfectCounter := true;
        } else {
          damage := damage * 0.5;
          opponent.energy := opponent.energy - PENALTY_HIT;
        }
      } else if defenderFacingAttacker && opponent.state == CROUCH {
        if state == KICK {
          damage := 0.0;
          isPerfectCounter := true;
        } else {
          damage := damage * 0.5;
          opponent.energy := opponent.energy - PENALTY_HIT;
        }
      }
    }
  }
}
