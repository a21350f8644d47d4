/**
 * services/InputManager.ts: keyboard keys held in a set, a touch overlay,
 * and a polled gamepad, merged by OR into one input state. The window
 * listeners become explicit event methods; `navigator.getGamepads()` is the
 * `pads` argument of `GetState`.
 */
module Input {
  import opened Wrappers
  import opened Types

  /** A polled gamepad: stick axes and the pressed flag of each button. */
  datatype Gamepad = Gamepad(axes: seq<real>, buttons: seq<bool>)

  /** `gp.axes[i] ?? 0`. */
  function Axis(gp: Gamepad, i: nat): real {
    if i < |gp.axes| then gp.axes[i] else 0.0
  }

  /** `gp.buttons[i]?.pressed ?? false`. */
  predicate Pressed(gp: Gamepad, i: nat) {
    i < |gp.buttons| && gp.buttons[i]
  }

  /** The fields of a partial input update; None keeps the current value. */
  datatype InputUpdate = InputUpdate(
    left: Option<bool>, right: Option<bool>, up: Option<bool>, down: Option<bool>,
    action1: Option<bool>, action2: Option<bool>, action3: Option<bool>)

  /** `{ ...state, ...updates }`. */
  function Overlay(state: InputState, updates: InputUpdate): (r: InputState)
    ensures updates.left.Some? ==> r.left == updates.left.value
    ensures updates.left.None? ==> r.left == state.left
    ensures updates.right.Some? ==> r.right == updates.right.value
    ensures updates.right.None? ==> r.right == state.right
    ensures updates.up.Some? ==> r.up == updates.up.value
    ensures updates.up.None? ==> r.up == state.up
    ensures updates.down.Some? ==> r.down == updates.down.value
    ensures updates.down.None? ==> r.down == state.down
    ensures updates.action1.Some? ==> r.action1 == updates.action1.value
    ensures updates.action1.None? ==> r.action1 == state.action1
    ensures updates.action2.Some? ==> r.action2 == updates.action2.value
    ensures updates.action2.None? ==> r.action2 == state.action2
    ensures updates.action3.Some? ==> r.action3 == updates.action3.value
    ensures updates.action3.None? ==> r.action3 == state.action3
  {
    InputState(updates.left.GetOr(state.left), updates.right.GetOr(state.right),
               updates.up.GetOr(state.up), updates.down.GetOr(state.down),
               updates.action1.GetOr(state.action1), updates.action2.GetOr(state.action2),
               updates.action3.GetOr(state.action3))
  }

  /** Field-wise OR. */
  function Or(a: InputState, b: InputState): InputState {
    InputState(a.left || b.left, a.right || b.right, a.up || b.up, a.down || b.down,
               a.action1 || b.action1, a.action2 || b.action2, a.action3 || b.action3)
  }

  /** Every flag set in `a` is set in `b`. */
  predicate Covers(b: InputState, a: InputState) {
    (a.left ==> b.left) && (a.right ==> b.right) && (a.up ==> b.up) && (a.down ==> b.down) &&
    (a.action1 ==> b.action1) && (a.action2 ==> b.action2) && (a.action3 ==> b.action3)
  }

  /**
   * A DOM `KeyboardEvent.code`: the eleven codes the game maps by name,
   * any other code as `Other`.
   */
  datatype KeyCode =
    | ArrowLeft | ArrowRight | ArrowUp | ArrowDown
    | KeyA | KeyD | KeyW | KeyS | KeyJ | KeyK | KeyL
    | Other(code: string)

  /** The code string of a key. */
  function CodeName(k: KeyCode): string {
    match k
    case ArrowLeft => "ArrowLeft"
    case ArrowRight => "ArrowRight"
    case ArrowUp => "ArrowUp"
    case ArrowDown => "ArrowDown"
    case KeyA => "KeyA"
    case KeyD => "KeyD"
    case KeyW => "KeyW"
    case KeyS => "KeyS"
    case KeyJ => "KeyJ"
    case KeyK => "KeyK"
    case KeyL => "KeyL"
    case Other(code) => code
  }

  /** The key an event's `code` names. */
  function Parse(code: string): (k: KeyCode)
    ensures CodeName(k) == code
  {
    if code == "ArrowLeft" then ArrowLeft
    else if code == "ArrowRight" then ArrowRight
    else if code == "ArrowUp" then ArrowUp
    else if code == "ArrowDown" then ArrowDown
    else if code == "KeyA" then KeyA
    else if code == "KeyD" then KeyD
    else if code == "KeyW" then KeyW
    else if code == "KeyS" then KeyS
    else if code == "KeyJ" then KeyJ
    else if code == "KeyK" then KeyK
    else if code == "KeyL" then KeyL
    else Other(code)
  }

  /**
   * Distinct codes parse to distinct keys, so a set of parsed keys holds
   * exactly the information of the set of code strings.
   */
  lemma ParseIsInjective(a: string, b: string)
    ensures Parse(a) == Parse(b) <==> a == b
  {
    if Parse(a) == Parse(b) {
      assert a == CodeName(Parse(a)) == CodeName(Parse(b)) == b;
    }
  }

  /** The keyboard mapping: arrows or WASD to move, J/K/L for punch, kick and block. */
  function KeyboardState(keys: set<KeyCode>): (r: InputState)
    ensures r.left <==> ArrowLeft in keys || KeyA in keys
    ensures r.right <==> ArrowRight in keys || KeyD in keys
    ensures r.up <==> ArrowUp in keys || KeyW in keys
    ensures r.down <==> ArrowDown in keys || KeyS in keys
    ensures r.action1 <==> KeyJ in keys
    ensures r.action2 <==> KeyK in keys
    ensures r.action3 <==> KeyL in keys
  {
    InputState(ArrowLeft in keys || KeyA in keys, ArrowRight in keys || KeyD in keys,
               ArrowUp in keys || KeyW in keys, ArrowDown in keys || KeyS in keys,
               KeyJ in keys, KeyK in keys, KeyL in keys)
  }

  /**
   * The gamepad mapping: the left stick past the 0.5 dead zone or the d-pad
   * (buttons 14, 15, 12, 13) to move; 2 or 0 to punch, 3 or 1 to kick,
   * 5, 4 or 7 to block.
   */
  function PadState(gp: Gamepad): (r: InputState)
    ensures r.left <==> Axis(gp, 0) < -0.5 || Pressed(gp, 14)
    ensures r.right <==> Axis(gp, 0) > 0.5 || Pressed(gp, 15)
    ensures r.up <==> Axis(gp, 1) < -0.5 || Pressed(gp, 12)
    ensures r.down <==> Axis(gp, 1) > 0.5 || Pressed(gp, 13)
    ensures r.action1 <==> Pressed(gp, 2) || Pressed(gp, 0)
    ensures r.action2 <==> Pressed(gp, 3) || Pressed(gp, 1)
    ensures r.action3 <==> Pressed(gp, 5) || Pressed(gp, 4) || Pressed(gp, 7)
  {
    var axisX := Axis(gp, 0);
    var axisY := Axis(gp, 1);
    InputState(axisX < -0.5 || Pressed(gp, 14), axisX > 0.5 || Pressed(gp, 15),
               axisY < -0.5 || Pressed(gp, 12), axisY > 0.5 || Pressed(gp, 13),
               Pressed(gp, 2) || Pressed(gp, 0), Pressed(gp, 3) || Pressed(gp, 1),
               Pressed(gp, 5) || Pressed(gp, 4) || Pressed(gp, 7))
  }

  /** `navigator.getGamepads()[index]`: None when the slot is empty or out of range. */
  function PadAt(pads: seq<Option<Gamepad>>, index: Option<nat>): (r: Option<Gamepad>)
    ensures index.None? ==> r.None?
    ensures index.Some? && index.value < |pads| ==> r == pads[index.value]
    ensures index.Some? && index.value >= |pads| ==> r.None?
  {
    match index
    case None => None
    case Some(i) => if i < |pads| then pads[i] else None
  }

  /** Keyboard OR touch, OR the pad when there is one. */
  function Merge(keys: set<KeyCode>, touch: InputState, pad: Option<Gamepad>): (r: InputState)
    ensures Covers(r, KeyboardState(keys)) && Covers(r, touch)
    ensures pad.Some? ==> Covers(r, PadState(pad.value))
  {
    var kbState := Or(KeyboardState(keys), touch);
    match pad
    case None => kbState
    case Some(gp) => Or(kbState, PadState(gp))
  }

  class InputManager {
    var keys: set<KeyCode>
    var gamepadIndex: Option<nat>
    var touchState: InputState

    constructor ()
      ensures keys == {} && gamepadIndex.None? && touchState == NEUTRAL
    {
      keys := {};
      gamepadIndex := None;
      touchState := NEUTRAL;
    }

    /** The keydown listener. */
    method HandleKeyDown(code: string)
      modifies this`keys
      ensures keys == old(keys) + {Parse(code)}
    {
      keys := keys + {Parse(code)};
    }

    /** The keyup listener. */
    method HandleKeyUp(code: string)
      modifies this`keys
      ensures keys == old(keys) - {Parse(code)}
    {
      keys := keys - {Parse(code)};
    }

    /** The gamepadconnected listener. */
    method HandleGamepadConnected(index: nat)
      modifies this`gamepadIndex
      ensures gamepadIndex == Some(index)
    {
      gamepadIndex := Some(index);
    }

    /** `setTouchState(updates)`: overrides only the given fields. */
    method SetTouchState(updates: InputUpdate)
      modifies this`touchState
      ensures touchState == Overlay(old(touchState), updates)
    {
      touchState := Overlay(touchState, updates);
    }

    /**
     * `getState()`: keyboard OR touch, and OR the connected pad's state when
     * a pad is known and present.
     */
    function GetState(pads: seq<Option<Gamepad>>): (r: InputState)
      reads this
      ensures Covers(r, KeyboardState(keys)) && Covers(r, touchState)
      ensures PadAt(pads, gamepadIndex).None? ==> r == Or(KeyboardState(keys), touchState)
      ensures PadAt(pads, gamepadIndex).Some? ==>
                r == Or(Or(KeyboardState(keys), touchState), PadState(PadAt(pads, gamepadIndex).value))
    {
      Merge(keys, touchState, PadAt(pads, gamepadIndex))
    }
  }

  /**
   * No source can clear a flag another sets: holding more keys and more
   * touch flags never clears a field of the merged state.
   */
  lemma MergeIsMonotone(keys: set<KeyCode>, more: set<KeyCode>, touch: InputState, moreTouch: InputState,
                        pad: Option<Gamepad>)
    requires keys <= more && Covers(moreTouch, touch)
    ensures Covers(Merge(more, moreTouch, pad), Merge(keys, touch, pad))
  {
  }
}
