/**
 * Keyboard and mouse state of the single-header library (src/input.c): the
 * current and previous snapshot of every key and button, written by the
 * platform layer through minimalProcess* and read by the edge-detecting
 * queries. The static MinimalInputState record is an InputState object.
 */
module HeaderInput {
  import opened Common

  const OK: Byte := 1
  const FAIL: Byte := 0

  /** Keycodes are the Windows virtual-key codes 0x08..0xC0. */
  const KEY_FIRST: int := 0x08
  const KEY_LAST: int := 0xC0
  const BUTTON_FIRST: int := 0
  const BUTTON_LAST: int := 7

  const KEY_SHIFT: int := 0x10
  const KEY_CONTROL: int := 0x11
  /** The library defines ALT with the same value as CONTROL. */
  const KEY_ALT: int := 0x11
  const KEY_LCOMMAND: int := 0x5B
  const KEY_RCOMMAND: int := 0x5C

  const MOD_SHIFT: bv32 := 0x0001
  const MOD_CONTROL: bv32 := 0x0002
  const MOD_ALT: bv32 := 0x0004
  const MOD_COMMAND: bv32 := 0x0008
  const MOD_CAPS_LOCK: bv32 := 0x0010
  const MOD_NUM_LOCK: bv32 := 0x0020

  /** minimalKeycodeValid, on an int16 keycode */
  predicate KeycodeValid(keycode: I16)
  {
    KEY_FIRST <= keycode <= KEY_LAST
  }

  /** minimalMouseButtonValid, on an int8 button */
  predicate MouseButtonValid(button: I8)
  {
    BUTTON_FIRST <= button <= BUTTON_LAST
  }

  /** The four modifiers a mask can ask for. */
  datatype Modifier = Shift | Control | Alt | Command

  function ModBit(m: Modifier): bv32
  {
    match m
    case Shift => MOD_SHIFT
    case Control => MOD_CONTROL
    case Alt => MOD_ALT
    case Command => MOD_COMMAND
  }

  class InputState {
    var keys: array<Byte>
    var prevKeys: array<Byte>
    var buttons: array<Byte>
    var prevButtons: array<Byte>
    var cursorX: real
    var cursorY: real

    ghost predicate Valid()
      reads this
    {
      keys.Length == KEY_LAST + 1 && prevKeys.Length == KEY_LAST + 1 &&
      buttons.Length == BUTTON_LAST + 1 && prevButtons.Length == BUTTON_LAST + 1 &&
      keys != prevKeys && buttons != prevButtons
    }

    /** The zero-initialised static record. */
    constructor ()
      ensures Valid()
      ensures forall k :: 0 <= k <= KEY_LAST ==> keys[k] == 0 && prevKeys[k] == 0
      ensures forall b :: 0 <= b <= BUTTON_LAST ==> buttons[b] == 0 && prevButtons[b] == 0
      ensures cursorX == 0.0 && cursorY == 0.0
    {
      keys := new Byte[KEY_LAST + 1](_ => 0);
      prevKeys := new Byte[KEY_LAST + 1](_ => 0);
      buttons := new Byte[BUTTON_LAST + 1](_ => 0);
      prevButtons := new Byte[BUTTON_LAST + 1](_ => 0);
      cursorX, cursorY := 0.0, 0.0;
    }

    /** minimalUpdateInput: the current snapshot becomes the previous one. */
    method UpdateInput()
      requires Valid()
      modifies prevKeys, prevButtons
      ensures Valid()
      ensures prevKeys[..] == keys[..] && prevButtons[..] == buttons[..]
      ensures keys[..] == old(keys[..]) && buttons[..] == old(buttons[..])
      ensures forall k :: 0 <= k <= KEY_LAST ==> !KeyPressed(k) && !KeyReleased(k)
      ensures forall b :: -0x80 <= b < 0x80 ==> !MousePressed(b) && !MouseReleased(b)
    {
      forall i | 0 <= i < keys.Length {
        prevKeys[i] := keys[i];
      }
      forall i | 0 <= i < buttons.Length {
        prevButtons[i] := buttons[i];
      }
    }

    /**
     * minimalProcessKey: records a new action for a valid key and reports
     * whether the stored action changed.
     */
    method ProcessKey(keycode: I16, action: Byte) returns (r: Byte)
      requires Valid()
      modifies keys
      ensures Valid()
      ensures r == OK <==> KeycodeValid(keycode) && old(keys[keycode]) != action
      ensures r == OK || r == FAIL
      ensures keys[..] == if r == OK then old(keys[..])[keycode := action] else old(keys[..])
      ensures KeycodeValid(keycode) && prevKeys[keycode] == 0 && action != 0 ==> KeyPressed(keycode)
      ensures KeycodeValid(keycode) && prevKeys[keycode] != 0 && action == 0 ==> KeyReleased(keycode)
    {
      if KeycodeValid(keycode) && keys[keycode] != action {
        keys[keycode] := action;
        return OK;
      }
      return FAIL;
    }

    /** minimalProcessMouseButton: the same contract over the eight buttons. */
    method ProcessMouseButton(button: I8, action: Byte) returns (r: Byte)
      requires Valid()
      modifies buttons
      ensures Valid()
      ensures r == OK <==> MouseButtonValid(button) && old(buttons[button]) != action
      ensures r == OK || r == FAIL
      ensures buttons[..] == if r == OK then old(buttons[..])[button := action] else old(buttons[..])
    {
      if MouseButtonValid(button) && buttons[button] != action {
        buttons[button] := action;
        return OK;
      }
      return FAIL;
    }

    /** minimalProcessMouseMove: stores the cursor position and always succeeds. */
    method ProcessMouseMove(x: real, y: real) returns (r: Byte)
      modifies this`cursorX, this`cursorY
      ensures r == OK
      ensures CursorX() == x && CursorY() == y
    {
      cursorX := x;
      cursorY := y;
      return OK;
    }

    function CursorX(): real
      reads this
    {
      cursorX
    }

    function CursorY(): real
      reads this
    {
      cursorY
    }

    /**
     * minimalKeyPressed. The source reads keys[keycode] before it checks the
     * range, so only codes inside the array may be passed.
     */
    function KeyPressed(keycode: I16): bool
      reads this, keys, prevKeys
      requires Valid()
      requires 0 <= keycode <= KEY_LAST
    {
      KeycodeValid(keycode) && keys[keycode] != 0 && prevKeys[keycode] == 0
    }

    /** minimalKeyReleased */
    function KeyReleased(keycode: I16): bool
      reads this, keys, prevKeys
      requires Valid()
    {
      KeycodeValid(keycode) && prevKeys[keycode] != 0 && keys[keycode] == 0
    }

    /** minimalKeyDown: the stored action byte, 0 for an invalid code */
    function KeyDown(keycode: I16): Byte
      reads this, keys
      requires Valid()
    {
      if KeycodeValid(keycode) then keys[keycode] else 0
    }

    function MousePressed(button: I8): bool
      reads this, buttons, prevButtons
      requires Valid()
    {
      MouseButtonValid(button) && buttons[button] != 0 && prevButtons[button] == 0
    }

    function MouseReleased(button: I8): bool
      reads this, buttons, prevButtons
      requires Valid()
    {
      MouseButtonValid(button) && prevButtons[button] != 0 && buttons[button] == 0
    }

    function MouseDown(button: I8): Byte
      reads this, buttons
      requires Valid()
    {
      if MouseButtonValid(button) then buttons[button] else 0
    }

    /** Whether the key that satisfies one modifier is down. */
    predicate ModifierHeld(m: Modifier)
      reads this, keys
      requires Valid()
    {
      match m
      case Shift => keys[KEY_SHIFT] != 0
      case Control => keys[KEY_CONTROL] != 0
      case Alt => keys[KEY_ALT] != 0
      case Command => keys[KEY_LCOMMAND] != 0 || keys[KEY_RCOMMAND] != 0
    }

    /**
     * minimalKeyModActive: an empty mask is always active; otherwise every
     * modifier the mask asks for must be held. Other bits, the lock bits
     * among them, are ignored.
     */
    function KeyModActive(keymod: bv32): (r: bool)
      reads this, keys
      requires Valid()
      ensures r <==> keymod == 0 || forall m: Modifier :: keymod & ModBit(m) != 0 ==> ModifierHeld(m)
    {
      if keymod == 0 then true
      else if keymod & MOD_SHIFT != 0 && keys[KEY_SHIFT] == 0 then
        assert !ModifierHeld(Shift); false
      else if keymod & MOD_CONTROL != 0 && keys[KEY_CONTROL] == 0 then
        assert !ModifierHeld(Control); false
      else if keymod & MOD_ALT != 0 && keys[KEY_ALT] == 0 then
        assert !ModifierHeld(Alt); false
      else if keymod & MOD_COMMAND != 0 && !(keys[KEY_LCOMMAND] != 0 || keys[KEY_RCOMMAND] != 0) then
        assert !ModifierHeld(Command); false
      else true
    }

    // -------------------------------------------------------------------------
    // Properties

    /** A key or button is never reported pressed and released at once. */
    lemma EdgesExclusive(keycode: I16, button: I8)
      requires Valid()
      requires 0 <= keycode <= KEY_LAST
      ensures !(KeyPressed(keycode) && KeyReleased(keycode))
      ensures !(MousePressed(button) && MouseReleased(button))
    {
    }

    /** Codes out of range read as neither pressed, released nor down. */
    lemma OutOfRangeQueries(keycode: I16, button: I8)
      requires Valid()
      ensures !KeycodeValid(keycode) ==> !KeyReleased(keycode) && KeyDown(keycode) == 0
      ensures !KeycodeValid(keycode) && 0 <= keycode <= KEY_LAST ==> !KeyPressed(keycode)
      ensures !MouseButtonValid(button) ==>
        !MousePressed(button) && !MouseReleased(button) && MouseDown(button) == 0
    {
    }

    /** The lock bits of a mask make no difference. */
    lemma LockBitsIgnored(keymod: bv32)
      requires Valid()
      ensures KeyModActive(keymod) == KeyModActive(keymod & !(MOD_CAPS_LOCK | MOD_NUM_LOCK))
    {
      var stripped := keymod & !(MOD_CAPS_LOCK | MOD_NUM_LOCK);
      assert forall m: Modifier :: stripped & ModBit(m) == keymod & ModBit(m);
    }

    /** COMMAND is satisfied by either command key. */
    lemma EitherCommandKey()
      requires Valid()
      ensures KeyModActive(MOD_COMMAND) <==> keys[KEY_LCOMMAND] != 0 || keys[KEY_RCOMMAND] != 0
    {
      assert MOD_COMMAND & ModBit(Command) != 0;
    }

    /** ALT and CONTROL test the same key slot, so they are indistinguishable. */
    lemma AltSameAsControl()
      requires Valid()
      ensures KeyModActive(MOD_ALT) == KeyModActive(MOD_CONTROL)
    {
      assert MOD_ALT & ModBit(Alt) != 0;
      assert MOD_CONTROL & ModBit(Control) != 0;
    }
  }
}
