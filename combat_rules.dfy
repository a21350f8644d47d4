/**
 * The per-tick rules of services/GameEngine.ts as functions on a value
 * snapshot of a fighter. The `Fighter` class (game_engine.dfy) updates its
 * fields step by step and is proved to agree with these functions; the
 * properties of the rules are proved here.
 */
module CombatRules {
  import opened Wrappers
  import opened Types
  import opened Config

  /** A facing direction: 1 is right, -1 is left. */
  type Direction = d: int | d == -1 || d == 1 witness 1

  /** An active attack box. */
  datatype Hitbox = Hitbox(x: real, y: real, w: real, h: real)

  /** Everything about a fighter that the simulation reads or writes. */
  datatype FighterData = FighterData(
    x: real, y: real, vx: real, vy: real,
    width: real, height: real,
    health: real, energy: real,
    state: FighterAction, direction: Direction,
    hitbox: Option<Hitbox>, cooldown: int)

  const FIGHTER_WIDTH: real := 55.0
  const FIGHTER_HEIGHT: real := 110.0
  const ATTACK_COOLDOWN: int := 20
  const COUNTER_STUN: int := 5
  /** The height of a fallen fighter's top edge above the ground line. */
  const LYING_HEIGHT: real := 40.0

  /** A new fighter standing on the ground at `x`, facing right, fully charged. */
  function Spawned(x: real): (f: FighterData)
    ensures f.x == x && f.y + f.height == GROUND_Y && OnGround(f)
    ensures f.health == 100.0 && f.energy == ENERGY_MAX && f.state == IDLE
    ensures f.direction == 1 && f.hitbox.None? && f.cooldown == 0 && f.vx == 0.0 && f.vy == 0.0
  {
    FighterData(x, GROUND_Y - FIGHTER_HEIGHT, 0.0, 0.0, FIGHTER_WIDTH, FIGHTER_HEIGHT,
                100.0, ENERGY_MAX, IDLE, 1, None, 0)
  }

  /** Close enough to the ground to jump or crouch. */
  predicate OnGround(f: FighterData) {
    f.y >= GROUND_Y - f.height - 1.0
  }

  predicate Alive(f: FighterData) {
    f.health > 0.0
  }

  // ---------------------------------------------------------------- death

  /** The ragdoll step of a dead fighter: it falls and slides; nothing else changes. */
  function DeathStep(f: FighterData): (r: FighterData)
    ensures r.y <= GROUND_Y - LYING_HEIGHT
    ensures r.health == f.health && r.energy == f.energy && r.cooldown == f.cooldown
    ensures r.state == f.state && r.hitbox == f.hitbox && r.direction == f.direction
    ensures r.width == f.width && r.height == f.height
    ensures f.y + f.vy > GROUND_Y - LYING_HEIGHT ==>
              r.y == GROUND_Y - LYING_HEIGHT && r.x == f.x && r.vx == f.vx * 0.5 && r.vy == 0.0
    ensures f.y + f.vy <= GROUND_Y - LYING_HEIGHT ==>
              r.y == f.y + f.vy && r.x == f.x + f.vx && r.vx == f.vx && r.vy == f.vy + GRAVITY
  {
    var y := f.y + f.vy;
    var vy := f.vy + GRAVITY;
    if y > GROUND_Y - LYING_HEIGHT then
      f.(y := GROUND_Y - LYING_HEIGHT, vx := f.vx * 0.5, vy := 0.0)
    else
      f.(y := y, vy := vy, x := f.x + f.vx)
  }

  // ------------------------------------------------------ energy/cooldown

  function Abs(v: real): real {
    if v < 0.0 then -v else v
  }

  /** Nearly still and idle: regenerates at the faster rate. */
  predicate Resting(f: FighterData) {
    Abs(f.vx) < 0.5 && f.state == IDLE
  }

  /** One frame of cooldown and energy regeneration. */
  function EnergyStep(f: FighterData): (r: FighterData)
    ensures r == f.(cooldown := r.cooldown, energy := r.energy)
    ensures f.cooldown > 0 ==> r.cooldown == f.cooldown - 1
    ensures f.cooldown <= 0 ==> r.cooldown == f.cooldown
    ensures f.cooldown >= 0 ==> r.cooldown >= 0
    ensures f.energy >= ENERGY_MAX ==> r.energy == f.energy
    ensures f.energy < ENERGY_MAX && Resting(f) ==> r.energy == f.energy + REGEN_IDLE
    ensures f.energy < ENERGY_MAX && !Resting(f) ==> r.energy == f.energy + REGEN_ACTIVE
    ensures f.energy <= r.energy
  {
    var cooldown := if f.cooldown > 0 then f.cooldown - 1 else f.cooldown;
    var rate := if Resting(f) then REGEN_IDLE else REGEN_ACTIVE;
    var energy := if f.energy < ENERGY_MAX then f.energy + rate else f.energy;
    f.(cooldown := cooldown, energy := energy)
  }

  // ------------------------------------------------------------- movement

  /** Past the first five frames of an attack the fighter cannot move. */
  predicate AnimationLocked(f: FighterData) {
    f.cooldown > 5
  }

  /** Walking: left wins over right; without a horizontal move the state is IDLE. */
  function Walk(f: FighterData, input: InputState): (r: FighterData)
    ensures r == f.(vx := r.vx, energy := r.energy, direction := r.direction, state := r.state)
    ensures r.state == MOVE_LEFT <==> input.left && f.energy >= COST_MOVE
    ensures r.state == MOVE_RIGHT <==> !input.left && input.right && f.energy >= COST_MOVE
    ensures r.state == IDLE <==> !(input.left || input.right) || f.energy < COST_MOVE
    ensures r.state == MOVE_LEFT ==> r.vx == f.vx - 1.5 && r.direction == -1 && r.energy == f.energy - COST_MOVE
    ensures r.state == MOVE_RIGHT ==> r.vx == f.vx + 1.5 && r.direction == 1 && r.energy == f.energy - COST_MOVE
    ensures r.state == IDLE ==> r.vx == f.vx && r.direction == f.direction && r.energy == f.energy
  {
    if input.left && f.energy >= COST_MOVE then
      f.(vx := f.vx - 1.5, energy := f.energy - COST_MOVE, direction := -1, state := MOVE_LEFT)
    else if input.right && f.energy >= COST_MOVE then
      f.(vx := f.vx + 1.5, energy := f.energy - COST_MOVE, direction := 1, state := MOVE_RIGHT)
    else
      f.(state := IDLE)
  }

  predicate CanJump(f: FighterData, input: InputState) {
    input.up && OnGround(f) && f.energy >= COST_JUMP
  }

  /** Jumping needs the ground under the fighter and 15 energy. */
  function Jump(f: FighterData, input: InputState): (r: FighterData)
    ensures CanJump(f, input) ==> r == f.(vy := -18.0, energy := f.energy - COST_JUMP, state := JUMP)
    ensures !CanJump(f, input) ==> r == f
  {
    if CanJump(f, input) then f.(vy := -18.0, energy := f.energy - COST_JUMP, state := JUMP) else f
  }

  predicate CanCrouch(f: FighterData, input: InputState) {
    input.down && OnGround(f) && f.energy >= COST_CROUCH
  }

  /** Crouching needs the ground and half an energy point, and halves the speed. */
  function Crouch(f: FighterData, input: InputState): (r: FighterData)
    ensures CanCrouch(f, input) ==> r == f.(state := CROUCH, energy := f.energy - COST_CROUCH, vx := f.vx * 0.5)
    ensures !CanCrouch(f, input) ==> r == f
  {
    if CanCrouch(f, input) then f.(state := CROUCH, energy := f.energy - COST_CROUCH, vx := f.vx * 0.5) else f
  }

  predicate CanBlock(f: FighterData, input: InputState) {
    input.action3 && f.energy >= COST_BLOCK
  }

  /** Blocking works in the air too and cuts the speed to 30%. */
  function Block(f: FighterData, input: InputState): (r: FighterData)
    ensures CanBlock(f, input) ==> r == f.(state := BLOCK, energy := f.energy - COST_BLOCK, vx := f.vx * 0.3)
    ensures !CanBlock(f, input) ==> r == f
  {
    if CanBlock(f, input) then f.(state := BLOCK, energy := f.energy - COST_BLOCK, vx := f.vx * 0.3) else f
  }

  /** A fighter state reachable from the movement step. */
  predicate MovementState(s: FighterAction) {
    s == IDLE || s == MOVE_LEFT || s == MOVE_RIGHT || s == JUMP || s == CROUCH || s == BLOCK
  }

  /**
   * `handleMovementAndStates`: nothing while animation locked; otherwise
   * walk, then jump, then crouch, then block, each overriding the state the
   * previous one set.
   */
  function MovementStep(f: FighterData, input: InputState): (r: FighterData)
    ensures AnimationLocked(f) ==> r == f
    ensures !AnimationLocked(f) ==> MovementState(r.state)
    ensures r.x == f.x && r.y == f.y && r.health == f.health && r.cooldown == f.cooldown
    ensures r.hitbox == f.hitbox && r.width == f.width && r.height == f.height
    ensures r.energy <= f.energy
    ensures f.energy >= 0.0 ==> r.energy >= 0.0
    ensures !AnimationLocked(f) ==>
              (r.state == BLOCK <==> CanBlock(Crouch(Jump(Walk(f, input), input), input), input))
  {
    if AnimationLocked(f) then f
    else Block(Crouch(Jump(Walk(f, input), input), input), input)
  }

  // -------------------------------------------------------------- attacks

  predicate CanPunch(f: FighterData, input: InputState) {
    input.action1 && f.energy >= COST_PUNCH
  }

  predicate CanKick(f: FighterData, input: InputState) {
    input.action2 && f.energy >= COST_KICK
  }

  /** `handleAttacks`: only with no cooldown left; a punch wins over a kick. */
  function AttackStep(f: FighterData, input: InputState): (r: FighterData)
    ensures f.cooldown > 0 ==> r == f
    ensures f.cooldown <= 0 && CanPunch(f, input) ==>
              r == f.(state := PUNCH, vx := f.vx * 0.2, cooldown := ATTACK_COOLDOWN, energy := f.energy - COST_PUNCH)
    ensures f.cooldown <= 0 && !CanPunch(f, input) && CanKick(f, input) ==>
              r == f.(state := KICK, vx := f.vx * 0.2, cooldown := ATTACK_COOLDOWN, energy := f.energy - COST_KICK)
    ensures f.cooldown <= 0 && !CanPunch(f, input) && !CanKick(f, input) ==> r == f
    ensures f.energy >= 0.0 ==> r.energy >= 0.0
    ensures r.cooldown == ATTACK_COOLDOWN || r.cooldown == f.cooldown
  {
    if f.cooldown > 0 then f
    else if CanPunch(f, input) then
      f.(state := PUNCH, vx := f.vx * 0.2, cooldown := ATTACK_COOLDOWN, energy := f.energy - COST_PUNCH)
    else if CanKick(f, input) then
      f.(state := KICK, vx := f.vx * 0.2, cooldown := ATTACK_COOLDOWN, energy := f.energy - COST_KICK)
    else f
  }

  // ------------------------------------------------------------- hitboxes

  /** The active frames of an attack: cooldown strictly between 5 and 15. */
  predicate ActiveFrames(f: FighterData) {
    5 < f.cooldown < 15
  }

  /** `updateHitboxes`: the attack box in front of the fighter during the active frames. */
  function HitboxStep(f: FighterData): (r: FighterData)
    ensures r == f.(hitbox := r.hitbox)
    ensures r.hitbox.Some? <==> (f.state == PUNCH || f.state == KICK) && ActiveFrames(f)
    ensures r.hitbox.Some? && f.state == PUNCH ==>
              r.hitbox.value.w == 46.0 && r.hitbox.value.h == 20.0 && r.hitbox.value.y == f.y + 20.0
    ensures r.hitbox.Some? && f.state == KICK ==>
              r.hitbox.value.w == 66.0 && r.hitbox.value.h == 30.0 && r.hitbox.value.y == f.y + 40.0
    ensures r.hitbox.Some? && f.direction == 1 ==> r.hitbox.value.x == f.x + f.width
    ensures r.hitbox.Some? && f.direction == -1 ==> r.hitbox.value.x + r.hitbox.value.w == f.x
  {
    if f.state == PUNCH && ActiveFrames(f) then
      f.(hitbox := Some(Hitbox(if f.direction == 1 then f.x + f.width else f.x - 46.0, f.y + 20.0, 46.0, 20.0)))
    else if f.state == KICK && ActiveFrames(f) then
      f.(hitbox := Some(Hitbox(if f.direction == 1 then f.x + f.width else f.x - 66.0, f.y + 40.0, 66.0, 30.0)))
    else
      f.(hitbox := None)
  }

  // -------------------------------------------------------------- physics

  /** Lands iff the integrated position would sink below the ground line. */
  predicate Lands(f: FighterData) {
    f.y + f.vy > GROUND_Y - f.height
  }

  /** `updatePhysicsBounding`: integrate, apply gravity and friction, then clamp to floor and walls. */
  function PhysicsStep(f: FighterData): (r: FighterData)
    ensures r == f.(x := r.x, y := r.y, vx := r.vx, vy := r.vy, state := r.state)
    ensures r.vx == f.vx * FRICTION
    ensures r.y <= GROUND_Y - f.height
    ensures Lands(f) ==> r.y == GROUND_Y - f.height && r.vy == 0.0 && r.state == (if f.state == JUMP then IDLE else f.state)
    ensures !Lands(f) ==> r.y == f.y + f.vy && r.vy == f.vy + GRAVITY && r.state == f.state
    ensures r.x <= CANVAS_WIDTH - f.width
    ensures f.width <= CANVAS_WIDTH ==> 0.0 <= r.x
    ensures 0.0 <= f.x + f.vx <= CANVAS_WIDTH - f.width ==> r.x == f.x + f.vx
  {
    var x := f.x + f.vx;
    var moved := f.(x := x, y := f.y + f.vy, vy := f.vy + GRAVITY, vx := f.vx * FRICTION);
    var grounded :=
      if moved.y > GROUND_Y - f.height then
        moved.(y := GROUND_Y - f.height, vy := 0.0, state := if f.state == JUMP then IDLE else f.state)
      else moved;
    var left := if grounded.x < 0.0 then grounded.(x := 0.0) else grounded;
    if left.x > CANVAS_WIDTH - f.width then left.(x := CANVAS_WIDTH - f.width) else left
  }

  // ----------------------------------------------------------------- tick

  /**
   * One `update` of a fighter given the input it acts on: a dead fighter
   * only falls; a living one regenerates, moves, attacks, refreshes its
   * hitbox and integrates.
   */
  function Tick(f: FighterData, input: InputState): (r: FighterData)
    ensures r.health == f.health
    ensures r.width == f.width && r.height == f.height
  {
    if !Alive(f) then DeathStep(f)
    else PhysicsStep(HitboxStep(AttackStep(MovementStep(EnergyStep(f), input), input)))
  }

  /** The input a fighter acts on: a script-driven fighter with a worker ignores `input`. */
  function ActiveInput(input: InputState, scripted: bool, script: Option<InputState>): (r: InputState)
    ensures scripted && script.Some? ==> r == script.value
    ensures !(scripted && script.Some?) ==> r == input
  {
    if scripted && script.Some? then script.value else input
  }

  // ---------------------------------------------------------------- hits

  /** Strict overlap of an attack box and a fighter's body on both axes. */
  predicate Overlaps(h: Hitbox, d: FighterData) {
    h.x < d.x + d.width && h.x + h.w > d.x && h.y < d.y + d.height && h.y + h.h > d.y
  }

  /** A hit lands: there is a box, the defender lives, and the box overlaps the defender. */
  predicate Connects(a: FighterData, d: FighterData) {
    a.hitbox.Some? && Alive(d) && Overlaps(a.hitbox.value, d)
  }

  /** The defender has its back to the attacker. */
  predicate FacingAway(a: FighterData, d: FighterData) {
    (a.x > d.x && d.direction == -1) || (!(a.x > d.x) && d.direction == 1)
  }

  /** A punch deals 5, a kick (or any other attacking state) 10. */
  function BaseDamage(a: FighterData): (d: real)
    ensures d == 5.0 || d == 10.0
    ensures d == 5.0 <==> a.state == PUNCH
  {
    if a.state == PUNCH then 5.0 else 10.0
  }

  /** The damage a connecting hit deals, whether it is a perfect counter, and whether the defender pays the penalty. */
  datatype Verdict = Verdict(damage: real, perfectCounter: bool, penalty: bool)

  /**
   * The rock-paper-scissors table. Counters need the defender to face the
   * attacker; a defender facing away takes the base damage, never more.
   */
  function Judge(a: FighterData, d: FighterData): (v: Verdict)
    ensures FacingAway(a, d) ==> v == Verdict(BaseDamage(a), false, false)
    ensures !FacingAway(a, d) && d.state == BLOCK && a.state == PUNCH ==> v == Verdict(0.0, true, false)
    ensures !FacingAway(a, d) && d.state == BLOCK && a.state != PUNCH ==> v == Verdict(BaseDamage(a) * 0.5, false, true)
    ensures !FacingAway(a, d) && d.state == CROUCH && a.state == KICK ==> v == Verdict(0.0, true, false)
    ensures !FacingAway(a, d) && d.state == CROUCH && a.state != KICK ==> v == Verdict(BaseDamage(a) * 0.5, false, true)
    ensures d.state != BLOCK && d.state != CROUCH ==> v == Verdict(BaseDamage(a), false, false)
    ensures 0.0 <= v.damage <= BaseDamage(a)
    ensures v.perfectCounter <==> v.damage == 0.0
    ensures !(v.perfectCounter && v.penalty)
  {
    var base := BaseDamage(a);
    if !FacingAway(a, d) && d.state == BLOCK then
      if a.state == PUNCH then Verdict(0.0, true, false) else Verdict(base * 0.5, false, true)
    else if !FacingAway(a, d) && d.state == CROUCH then
      if a.state == KICK then Verdict(0.0, true, false) else Verdict(base * 0.5, false, true)
    else
      Verdict(base, false, false)
  }

  function Max(x: real, y: real): real {
    if x >= y then x else y
  }

  /** Attacker and defender after `checkHit`. */
  datatype Exchange = Exchange(attacker: FighterData, defender: FighterData)

  /**
   * `checkHit`: without a connecting hit nothing changes; with one, the
   * defender takes the judged damage (health floored at 0), the penalty and
   * the knockback, a perfect counter stuns the attacker, and the attacker's
   * hitbox is consumed.
   */
  function Strike(a: FighterData, d: FighterData): (r: Exchange)
    ensures !Connects(a, d) ==> r == Exchange(a, d)
    ensures Connects(a, d) ==>
              var v := Judge(a, d);
              r.attacker == a.(hitbox := None, cooldown := if v.perfectCounter then a.cooldown + COUNTER_STUN else a.cooldown) &&
              r.defender.health == Max(0.0, d.health - v.damage) &&
              r.defender.energy == (if v.penalty then d.energy - PENALTY_HIT else d.energy) &&
              r.defender.vx == (a.direction as real) * (if a.state == KICK then 15.0 else 8.0) &&
              r.defender.vy == -5.0 &&
              r.defender == d.(health := r.defender.health, energy := r.defender.energy,
                               vx := r.defender.vx, vy := r.defender.vy)
    ensures r.defender.health >= 0.0 || r.defender.health == d.health
    ensures r.defender.health <= d.health
    ensures r.attacker.hitbox.None? || r.attacker == a
  {
    if !Connects(a, d) then Exchange(a, d)
    else
      var v := Judge(a, d);
      var knockback := if a.state == KICK then 15.0 else 8.0;
      Exchange(
        a.(hitbox := None, cooldown := if v.perfectCounter then a.cooldown + COUNTER_STUN else a.cooldown),
        d.(health := Max(0.0, d.health - v.damage),
           energy := if v.penalty then d.energy - PENALTY_HIT else d.energy,
           vx := (a.direction as real) * knockback,
           vy := -5.0))
  }

  // ----------------------------------------------------------- properties

  /**
   * What every tick keeps: energy between 0 and one idle regeneration above
   * the maximum, cooldown between 0 and the attack cooldown, the body size,
   * and a hitbox only on an attacking fighter.
   */
  predicate Sane(f: FighterData) {
    0.0 <= f.energy <= ENERGY_MAX + REGEN_IDLE &&
    0 <= f.cooldown <= ATTACK_COOLDOWN &&
    f.width == FIGHTER_WIDTH && f.height == FIGHTER_HEIGHT &&
    (f.hitbox.Some? ==> f.state == PUNCH || f.state == KICK)
  }

  lemma SpawnedIsSane(x: real)
    ensures Sane(Spawned(x))
  {
  }

  lemma TickKeepsSane(f: FighterData, input: InputState)
    requires Sane(f)
    ensures Sane(Tick(f, input))
  {
    if Alive(f) {
      var e := EnergyStep(f);
      var m := MovementStep(e, input);
      var a := AttackStep(m, input);
      var h := HitboxStep(a);
      assert e.energy <= ENERGY_MAX + REGEN_IDLE;
      assert 0.0 <= a.energy <= ENERGY_MAX + REGEN_IDLE;
      assert h.hitbox.Some? ==> h.state == PUNCH || h.state == KICK;
    }
  }

  /** The fighter after one tick per input, in order. */
  function Run(f: FighterData, inputs: seq<InputState>): FighterData
    decreases |inputs|
  {
    if inputs == [] then f else Run(Tick(f, inputs[0]), inputs[1..])
  }

  lemma {:induction false} RunKeepsSane(f: FighterData, inputs: seq<InputState>)
    requires Sane(f)
    ensures Sane(Run(f, inputs))
    decreases |inputs|
  {
    if inputs != [] {
      TickKeepsSane(f, inputs[0]);
      RunKeepsSane(Tick(f, inputs[0]), inputs[1..]);
    }
  }

  /** A living fighter ends every tick inside the arena and not below the ground line. */
  lemma LivingTickStaysInArena(f: FighterData, input: InputState)
    requires Alive(f) && f.width <= CANVAS_WIDTH
    ensures 0.0 <= Tick(f, input).x <= CANVAS_WIDTH - f.width
    ensures Tick(f, input).y <= GROUND_Y - f.height
  {
    var a := AttackStep(MovementStep(EnergyStep(f), input), input);
    assert HitboxStep(a).width == f.width && HitboxStep(a).height == f.height;
  }

  /** While the cooldown is at least 2 no new attack can start: the tick just counts it down. */
  lemma CooldownCountsDown(f: FighterData, input: InputState)
    requires Alive(f) && f.cooldown >= 2
    ensures Tick(f, input).cooldown == f.cooldown - 1
  {
    var e := EnergyStep(f);
    assert AttackStep(MovementStep(e, input), input) == MovementStep(e, input);
  }

  /**
   * The tick that starts an attack shows no hitbox yet: the box appears only
   * once the cooldown has dropped below 15.
   */
  lemma NoHitboxOnFirstAttackFrame(f: FighterData, input: InputState)
    requires Alive(f) && Tick(f, input).cooldown == ATTACK_COOLDOWN
    ensures Tick(f, input).hitbox.None?
  {
    var a := AttackStep(MovementStep(EnergyStep(f), input), input);
    assert a.cooldown == ATTACK_COOLDOWN;
  }

  /** A dead fighter's step leaves its hitbox as it was. */
  lemma DeadFighterKeepsHitbox(f: FighterData, input: InputState)
    requires !Alive(f)
    ensures Tick(f, input).hitbox == f.hitbox
  {
  }

  /** A second check in the same tick changes nothing: the first hit consumed the hitbox. */
  lemma StrikeConsumesHitbox(a: FighterData, d: FighterData)
    ensures var r := Strike(a, d); Strike(r.attacker, r.defender) == r
  {
  }

  /** A hit from behind deals exactly the base damage: no counter, no stun and no multiplier. */
  lemma BackstabDealsBaseDamage(a: FighterData, d: FighterData)
    requires Connects(a, d) && FacingAway(a, d)
    ensures Strike(a, d).defender.health == Max(0.0, d.health - BaseDamage(a))
    ensures Strike(a, d).attacker.cooldown == a.cooldown
  {
  }

  /** Regeneration is not clamped: an idle fighter just under the maximum ends above it. */
  lemma RegenerationOvershootsMax()
    ensures Tick(Spawned(100.0).(energy := 99.75), NEUTRAL).energy == 100.25
  {
    var f := Spawned(100.0).(energy := 99.75);
    var e := EnergyStep(f);
    assert Resting(f);
    assert e.energy == 100.25;
    var m := MovementStep(e, NEUTRAL);
    assert m == e.(state := IDLE);
  }

  /** The hit penalty is not clamped: a defender partially blocking with almost no energy goes negative. */
  lemma HitPenaltyCanMakeEnergyNegative()
    ensures exists a: FighterData, d: FighterData :: Connects(a, d) && Strike(a, d).defender.energy < 0.0
  {
    var a := Spawned(100.0).(state := KICK, hitbox := Some(Hitbox(155.0, 345.0, 66.0, 30.0)), cooldown := 10);
    var d := Spawned(180.0).(state := BLOCK, energy := 0.5, direction := -1);
    assert Connects(a, d);
    assert !FacingAway(a, d);
    assert Judge(a, d).penalty;
    assert Strike(a, d).defender.energy == -0.5;
  }
}
