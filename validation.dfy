/**
 * utils/validation.ts: the settings schema as a parser from JSON values and
 * `safeLoadFromStorage`. The schema library's object parsing keeps the five
 * declared keys and drops any others.
 */
module Validation {
  import opened Wrappers
  import opened Js
  import opened Types
  import opened LocalStorage

  /** `z.enum(['HUMAN', 'CUSTOM_A', 'CUSTOM_B'])`. */
  function ParsePlayer1Type(v: JsValue): (r: Option<PlayerType>)
    ensures r.Some? <==> IsTypeName(v)
    ensures r.Some? ==> r.value == StoredPlayerType(v) && PlayerTypeValue(r.value) == v
  {
    if v == Str("HUMAN") then Some(HUMAN)
    else if v == Str("CUSTOM_A") then Some(CUSTOM_A)
    else if v == Str("CUSTOM_B") then Some(CUSTOM_B)
    else None
  }

  /** `z.enum(['CUSTOM_A', 'CUSTOM_B'])`: player 2 cannot be human. */
  function ParsePlayer2Type(v: JsValue): (r: Option<PlayerType>)
    ensures r.Some? <==> v == Str("CUSTOM_A") || v == Str("CUSTOM_B")
    ensures r.Some? ==> r.value == StoredPlayerType(v) && PlayerTypeValue(r.value) == v && r.value != HUMAN
    ensures v == Str("HUMAN") ==> r.None?
  {
    if v == Str("CUSTOM_A") then Some(CUSTOM_A)
    else if v == Str("CUSTOM_B") then Some(CUSTOM_B)
    else None
  }

  /** `z.number().min(lo).max(hi)`: a finite number within the inclusive bounds. */
  function ParseNumberIn(v: JsValue, lo: real, hi: real): (r: Option<real>)
    ensures r.Some? <==> v.Num? && lo <= v.n <= hi
    ensures r.Some? ==> r.value == v.n
  {
    if v.Num? && lo <= v.n <= hi then Some(v.n) else None
  }

  /** The settings a stored value can describe. */
  predicate ValidSettings(s: GameSettings) {
    && 30.0 <= s.fps <= 120.0 && 1.0 <= s.simulationSpeed <= 10.0
    && !s.player1Type.Unrecognised?
    && (s.player2Type == CUSTOM_A || s.player2Type == CUSTOM_B)
  }

  /** A required property: a missing key reads as undefined, which every field schema rejects. */
  function Prop(props: map<string, JsValue>, name: string): JsValue {
    if name in props then props[name] else Undefined
  }

  /** `GameSettingsSchema.safeParse(v)`. */
  function ParseGameSettings(v: JsValue): (r: Option<GameSettings>)
    ensures r.Some? ==> ValidSettings(r.value)
    ensures r.Some? <==>
              v.Obj? &&
              Prop(v.props, "fps").Num? && 30.0 <= Prop(v.props, "fps").n <= 120.0 &&
              Prop(v.props, "simulationSpeed").Num? && 1.0 <= Prop(v.props, "simulationSpeed").n <= 10.0 &&
              ParsePlayer1Type(Prop(v.props, "player1Type")).Some? &&
              ParsePlayer2Type(Prop(v.props, "player2Type")).Some? &&
              Prop(v.props, "isRunning").Bool?
  {
    match v
    case Obj(props) =>
      var fps := ParseNumberIn(Prop(props, "fps"), 30.0, 120.0);
      var speed := ParseNumberIn(Prop(props, "simulationSpeed"), 1.0, 10.0);
      var p1 := ParsePlayer1Type(Prop(props, "player1Type"));
      var p2 := ParsePlayer2Type(Prop(props, "player2Type"));
      var running := Prop(props, "isRunning");
      if fps.Some? && speed.Some? && p1.Some? && p2.Some? && running.Bool? then
        Some(GameSettings(fps.value, speed.value, p1.value, p2.value, running.b))
      else None
    case _ => None
  }

  /** The JSON object `saveSettings` would store for `s`. */
  function SettingsToJs(s: GameSettings): (v: JsValue)
    ensures v.Obj? && v.props.Keys == {"fps", "simulationSpeed", "player1Type", "player2Type", "isRunning"}
    ensures |v.props| == 5
    ensures v.props["fps"] == Num(s.fps) && v.props["simulationSpeed"] == Num(s.simulationSpeed)
    ensures v.props["player1Type"] == PlayerTypeValue(s.player1Type)
    ensures v.props["player2Type"] == PlayerTypeValue(s.player2Type)
    ensures v.props["isRunning"] == Bool(s.isRunning)
  {
    Obj(map["fps" := Num(s.fps), "simulationSpeed" := Num(s.simulationSpeed),
            "player1Type" := PlayerTypeValue(s.player1Type),
            "player2Type" := PlayerTypeValue(s.player2Type),
            "isRunning" := Bool(s.isRunning)])
  }

  /** Stored settings come back unchanged exactly when they satisfy the schema. */
  lemma SettingsRoundTrip(s: GameSettings)
    ensures ParseGameSettings(SettingsToJs(s)) == Some(s) <==> ValidSettings(s)
    ensures !ValidSettings(s) ==> ParseGameSettings(SettingsToJs(s)).None?
  {
    var props := SettingsToJs(s).props;
    assert Prop(props, "player1Type") == PlayerTypeValue(s.player1Type);
    assert Prop(props, "player2Type") == PlayerTypeValue(s.player2Type);
    assert Prop(props, "fps") == Num(s.fps);
    assert Prop(props, "simulationSpeed") == Num(s.simulationSpeed);
    assert Prop(props, "isRunning") == Bool(s.isRunning);
  }

  /**
   * `safeLoadFromStorage(key, schema)`: null when the read throws, the key is
   * missing or empty, the text does not parse, or the value fails the schema;
   * otherwise the validated value. `parse` stands for `JSON.parse` (None when it throws).
   */
  function SafeLoadFromStorage<T>(storage: Store, key: string, parse: string -> Option<JsValue>,
                                  schema: JsValue -> Option<T>): (r: Option<T>)
    reads storage
    ensures r.Some? <==>
              storage.GetItem(key).Found? && |storage.GetItem(key).value| > 0 &&
              parse(storage.GetItem(key).value).Some? &&
              schema(parse(storage.GetItem(key).value).value).Some?
    ensures r.Some? ==> r == schema(parse(storage.GetItem(key).value).value)
  {
    match storage.GetItem(key)
    case Threw => None
    case Missing => None
    case Found(raw) =>
      if |raw| == 0 then None
      else
        match parse(raw)
        case None => None
        case Some(parsed) => schema(parsed)
  }
}
