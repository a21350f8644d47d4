/** The shared records of types.ts: fighter actions, inputs, settings and the HUD game state. */
module Types {
  import opened Wrappers
  import opened Js

  /** The eight fighter states; `Code` gives the numeric value scripts see. */
  datatype FighterAction = IDLE | MOVE_LEFT | MOVE_RIGHT | JUMP | CROUCH | PUNCH | KICK | BLOCK {
    function Code(): int {
      match this
      case IDLE => 0
      case MOVE_LEFT => 1
      case MOVE_RIGHT => 2
      case JUMP => 3
      case CROUCH => 4
      case PUNCH => 5
      case KICK => 6
      case BLOCK => 7
    }
  }

  /** Seven control flags; action1 punches, action2 kicks, action3 blocks. */
  datatype InputState = InputState(
    left: bool, right: bool, up: bool, down: bool,
    action1: bool, action2: bool, action3: bool)

  /** The all-false input used for frozen fighters, absent scripts and failed calls. */
  const NEUTRAL: InputState := InputState(false, false, false, false, false, false, false)

  /**
   * A player type. Settings loaded from storage are spread without a schema
   * check, so a stored value that names none of the three types arrives as
   * `Unrecognised`, carrying the value itself.
   */
  datatype PlayerType = HUMAN | CUSTOM_A | CUSTOM_B | Unrecognised(raw: UnnamedType)

  /** One of the three type names as a JSON string. */
  predicate IsTypeName(v: JsValue) {
    v == Str("HUMAN") || v == Str("CUSTOM_A") || v == Str("CUSTOM_B")
  }

  /** A JSON value that names no player type. */
  type UnnamedType = v: JsValue | !IsTypeName(v) witness Null

  /** The JSON value a player type is stored as. */
  function PlayerTypeValue(t: PlayerType): (v: JsValue)
    ensures IsTypeName(v) <==> !t.Unrecognised?
  {
    match t
    case HUMAN => Str("HUMAN")
    case CUSTOM_A => Str("CUSTOM_A")
    case CUSTOM_B => Str("CUSTOM_B")
    case Unrecognised(raw) => raw
  }

  /** A stored value read as a player type, as the `type === 'HUMAN'` comparisons read it. */
  function StoredPlayerType(v: JsValue): (t: PlayerType)
    ensures PlayerTypeValue(t) == v
    ensures t.Unrecognised? <==> !IsTypeName(v)
  {
    if v == Str("HUMAN") then HUMAN
    else if v == Str("CUSTOM_A") then CUSTOM_A
    else if v == Str("CUSTOM_B") then CUSTOM_B
    else Unrecognised(v)
  }

  /** Storing a player type and reading it back gives the same type. */
  lemma StoredPlayerTypeRoundTrip(t: PlayerType)
    ensures StoredPlayerType(PlayerTypeValue(t)) == t
  {
  }

  datatype RoundStatus = WAITING | COUNTDOWN | FIGHTING | ROUND_END | ENDED

  datatype Winner = Player1 | Player2

  datatype ArcadeStats = ArcadeStats(matchesPlayed: int, p1Wins: int, p2Wins: int)

  datatype GameState = GameState(
    player1Health: real,
    player2Health: real,
    player1Energy: real,
    player2Energy: real,
    timeRemaining: real,
    matchActive: bool,
    winner: Option<Winner>,
    roundStatus: RoundStatus,
    arcadeStats: ArcadeStats,
    countdownValue: Option<int>)

  datatype GameSettings = GameSettings(
    fps: real,
    simulationSpeed: real,
    player1Type: PlayerType,
    player2Type: PlayerType,
    isRunning: bool)

  /** The argument of `setGameState` / `setSettings`: a new value or an updater of the previous one. */
  datatype Updater<!T> = Replace(value: T) | Apply(f: T -> T)

  function ApplyUpdater<T>(u: Updater<T>, prev: T): T {
    match u
    case Replace(v) => v
    case Apply(f) => f(prev)
  }
}
