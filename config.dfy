/** The gameplay constants of services/Config.ts, transcribed as exact reals. */
module Config {

  const CANVAS_WIDTH: real := 800.0
  const CANVAS_HEIGHT: real := 450.0
  const GRAVITY: real := 0.8
  const FRICTION: real := 0.85
  const GROUND_Y: real := 415.0

  const ENERGY_MAX: real := 100.0
  const REGEN_IDLE: real := 0.5
  const REGEN_ACTIVE: real := 0.2
  const COST_MOVE: real := 0.1
  const COST_JUMP: real := 15.0
  const COST_CROUCH: real := 0.5
  const COST_BLOCK: real := 0.5
  const COST_PUNCH: real := 10.0
  const COST_KICK: real := 20.0
  const PENALTY_HIT: real := 1.0

  const DEFAULT_FPS: real := 60.0
  const MATCH_DURATION: real := 90.0

  const COLOR_HUMAN: string := "#22c55e"
  const COLOR_CUSTOM_A: string := "#a855f7"
  const COLOR_CUSTOM_B: string := "#14b8a6"
}
