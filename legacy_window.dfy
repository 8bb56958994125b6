/**
 * The window of the oldest generation (Minimal/src/Minimal/MinimalWindow.c):
 * one state byte per key, driven by a press/repeat/release state machine,
 * one action byte per mouse button, the close flag, and the message cases of
 * MinimalWindowProc that feed them. Callback invocations and mouse capture
 * changes are appended to `trace`, in order.
 *
 * This generation's message decoders (the scan code and action of a key
 * message, the button of a mouse message, the cursor coordinates), its key
 * and mouse-button validators and its key table are the same code as the
 * Win32 generation's, so they are taken from Win32Window, Win32Util and
 * KeyTable. The one exception is MINIMAL_MOUSE_BUTTON_LAST, which sizes
 * `mouse_buttons` and bounds the button validator: no header of this
 * generation defines it, so the Win32 generation's value is assumed.
 */
module LegacyWindow {
  import opened Common
  import KeyTable
  import Win32Util
  import Win32Window

  /** MinimalKeyState */
  const RELEASE: Byte := 0
  const PRESS: Byte := 1
  const REPEAT: Byte := 2

  /** The window callbacks that can be registered. */
  datatype Hook = Size | Close | Key | Character | MButton | Scroll | CursorPos

  /** What the window calls out to. */
  datatype Call =
    | KeyCalled(key: U32, scancode: U32, action: U32, mods: U32)
    | MButtonCalled(button: U32, action: U32, mods: U32)
    | CursorPosCalled(x: int, y: int)
    | CaptureSet
    | CaptureReleased

  /** The state machine of MinimalUpdateKey: the new state of a key after an action. */
  function NextKeyState(state: Byte, action: U32): Byte
  {
    if action == PRESS as int && state == RELEASE then PRESS
    else if action == PRESS as int && state == PRESS then REPEAT
    else if action == RELEASE as int then RELEASE
    else state
  }

  /** MinimalWindow */
  class Window {
    var keyState: array<Byte>
    var mouseButtons: array<Byte>
    var shouldClose: Byte
    /** The callbacks that are set (non-NULL). */
    var hooks: set<Hook>
    var trace: seq<Call>

    ghost predicate Valid()
      reads this
    {
      keyState.Length == KeyTable.KEY_LAST + 1 && mouseButtons.Length == Win32Util.MOUSE_BUTTON_LAST + 1
    }

    /** Every key is released, pressed or repeating. */
    ghost predicate KeyStatesWellFormed()
      reads this, keyState
    {
      forall k :: 0 <= k < keyState.Length ==> keyState[k] <= REPEAT
    }

    /** The bookkeeping part of MinimalCreateWindow: all keys and buttons released, no callbacks. */
    constructor ()
      ensures Valid() && KeyStatesWellFormed()
      ensures forall k :: 0 <= k < keyState.Length ==> keyState[k] == RELEASE
      ensures forall b :: 0 <= b < mouseButtons.Length ==> mouseButtons[b] == RELEASE
      ensures shouldClose == 0 && hooks == {} && trace == []
    {
      keyState := new Byte[KeyTable.KEY_LAST + 1](_ => RELEASE);
      mouseButtons := new Byte[Win32Util.MOUSE_BUTTON_LAST + 1](_ => RELEASE);
      shouldClose := 0;
      hooks := {};
      trace := [];
    }

    /** The call a hook makes if it is set. */
    function IfHooked(hook: Hook, call: Call): seq<Call>
      reads this
    {
      if hook in hooks then [call] else []
    }

    /**
     * MinimalUpdateKey: a valid key moves through the state machine; the key
     * callback fires for every key, valid or not.
     */
    method UpdateKey(key: U32, scancode: U32, action: U32, mods: U32)
      requires Valid()
      modifies keyState, this`trace
      ensures Valid()
      ensures keyState[..] == if KeyTable.KeycodeValid(key)
        then old(keyState[..])[key := NextKeyState(old(keyState[key]), action)]
        else old(keyState[..])
      ensures old(KeyStatesWellFormed()) ==> KeyStatesWellFormed()
      ensures trace == old(trace) + IfHooked(Key, KeyCalled(key, scancode, action, mods))
    {
      if KeyTable.KeycodeValid(key) {
        var prev := keyState[key];
        if action == PRESS as int && prev == RELEASE {
          keyState[key] := PRESS;
        } else if action == PRESS as int && prev == PRESS {
          keyState[key] := REPEAT;
        } else if action == RELEASE as int {
          keyState[key] := RELEASE;
        }
      }
      if Key in hooks {
        trace := trace + [KeyCalled(key, scancode, action, mods)];
      }
    }

    /** MinimalUpdateMouseButton: a valid button stores the action as a byte; the callback fires for every button. */
    method UpdateMouseButton(button: U32, action: U32, mods: U32)
      requires Valid()
      modifies mouseButtons, this`trace
      ensures Valid()
      ensures mouseButtons[..] == if Win32Util.MouseButtonValid(button)
        then old(mouseButtons[..])[button := ToU8(action)]
        else old(mouseButtons[..])
      ensures trace == old(trace) + IfHooked(MButton, MButtonCalled(button, action, mods))
    {
      if Win32Util.MouseButtonValid(button) {
        mouseButtons[button] := ToU8(action);
      }
      if MButton in hooks {
        trace := trace + [MButtonCalled(button, action, mods)];
      }
    }

    /** MinimalCheckMouseButtons: the first button held down, or MOUSE_BUTTON_LAST + 1. */
    method CheckMouseButtons() returns (i: nat)
      requires Valid()
      ensures i == Win32Window.FirstPressed(mouseButtons[..])
      ensures i <= Win32Util.MOUSE_BUTTON_LAST + 1
      ensures i > Win32Util.MOUSE_BUTTON_LAST <==> PRESS !in mouseButtons[..]
    {
      i := 0;
      while i <= Win32Util.MOUSE_BUTTON_LAST
        invariant i <= Win32Util.MOUSE_BUTTON_LAST + 1
        invariant forall j :: 0 <= j < i ==> mouseButtons[j] != PRESS
      {
        if mouseButtons[i] == PRESS {
          break;
        }
        i := i + 1;
      }
      Win32Window.FirstPressedUnique(mouseButtons[..], i);
    }

    /**
     * The key-message case of MinimalWindowProc: the 9-bit scan code is
     * translated through the table (the unknown key -1 arrives as
     * 0xFFFFFFFF), the transition bit gives the action, and the result goes
     * through MinimalUpdateKey.
     */
    method KeyMessage(table: KeyTable.ScancodeTable, lParam: int, mods: U32)
      requires Valid() && table.Valid() && table.Created()
      modifies keyState, this`trace
      ensures Valid()
      ensures var scancode := Win32Window.ScancodeOf(lParam);
        var key := table.TranslateKeyU32(scancode);
        var action := Win32Window.KeyActionOf(lParam);
        keyState[..] == (if KeyTable.KeycodeValid(key)
          then old(keyState[..])[key := NextKeyState(old(keyState[key]), action)]
          else old(keyState[..])) &&
        trace == old(trace) + IfHooked(Key, KeyCalled(key, scancode, action, mods))
      ensures old(KeyStatesWellFormed()) ==> KeyStatesWellFormed()
    {
      var scancode := Win32Window.ScancodeOf(lParam);
      var keycode := table.TranslateKeyU32(scancode);
      var action := Win32Window.KeyActionOf(lParam);
      UpdateKey(keycode, scancode, action, mods);
    }

    /**
     * The mouse-button case of MinimalWindowProc: the mouse is captured when
     * no button was down before the event and released when none is down
     * after it. The result is 1 for the X buttons and 0 otherwise.
     */
    method MouseButtonMessage(msg: Win32Window.MouseMessage, down: bool, mods: U32) returns (result: int)
      requires Valid()
      modifies mouseButtons, this`trace
      ensures Valid()
      ensures var button := Win32Window.GetMouseButton(msg);
        var action := if down then PRESS else RELEASE;
        mouseButtons[..] == old(mouseButtons[..])[button := action] &&
        trace == old(trace)
          + (if PRESS !in old(mouseButtons[..]) then [CaptureSet] else [])
          + IfHooked(MButton, MButtonCalled(button, action, mods))
          + (if PRESS !in mouseButtons[..] then [CaptureReleased] else [])
      ensures result == if msg == Win32Window.XButton1 || msg == Win32Window.XButton2 then 1 else 0
    {
      var button := Win32Window.GetMouseButton(msg);
      var action: U32 := if down then PRESS else RELEASE;
      var before := CheckMouseButtons();
      if before > Win32Util.MOUSE_BUTTON_LAST {
        trace := trace + [CaptureSet];
      }
      UpdateMouseButton(button, action, mods);
      var after := CheckMouseButtons();
      if after > Win32Util.MOUSE_BUTTON_LAST {
        trace := trace + [CaptureReleased];
      }
      result := if msg == Win32Window.XButton1 || msg == Win32Window.XButton2 then 1 else 0;
    }

    /** The WM_MOUSEMOVE case: the signed client coordinates go to the cursor callback. */
    method CursorMessage(lParam: int)
      modifies this`trace
      ensures trace == old(trace) + IfHooked(CursorPos, CursorPosCalled(Win32Window.CursorOf(lParam).0, Win32Window.CursorOf(lParam).1))
    {
      var x, y := ToI16(lParam), ToI16(lParam / TWO16);
      if CursorPos in hooks {
        trace := trace + [CursorPosCalled(x, y)];
      }
    }

    /** MinimalShouldClose */
    function ShouldClose(): Byte
      reads this
    {
      shouldClose
    }

    /** MinimalCloseWindow, and the WM_CLOSE case of MinimalWindowProc. */
    method CloseWindow()
      modifies this`shouldClose
      ensures ShouldClose() == 1
    {
      shouldClose := 1;
    }

    /** The Minimal*Callback setters: registers (or clears) one callback. */
    method SetCallback(hook: Hook, set_: bool)
      modifies this`hooks
      ensures hooks == if set_ then old(hooks) + {hook} else old(hooks) - {hook}
    {
      if set_ {
        hooks := hooks + {hook};
      } else {
        hooks := hooks - {hook};
      }
    }
  }

  // ---------------------------------------------------------------------------
  // Properties

  /**
   * The transitions of the key state machine: a press of a released key
   * gives PRESS, a press of a pressed key gives REPEAT, a repeating key stays
   * REPEAT on a press, any key is RELEASE after a release, and any other
   * action leaves the state as it is.
   */
  lemma KeyStateMachine(state: Byte, action: U32)
    ensures state == RELEASE && action == PRESS as int ==> NextKeyState(state, action) == PRESS
    ensures state == PRESS && action == PRESS as int ==> NextKeyState(state, action) == REPEAT
    ensures state == REPEAT && action == PRESS as int ==> NextKeyState(state, action) == REPEAT
    ensures action == RELEASE as int ==> NextKeyState(state, action) == RELEASE
    ensures action != PRESS as int && action != RELEASE as int ==> NextKeyState(state, action) == state
    ensures state <= REPEAT ==> NextKeyState(state, action) <= REPEAT
  {
  }

  /** A key held down through any number of repeated press messages reads as REPEAT after the second one. */
  lemma {:induction false} HeldKeyRepeats(state: Byte, presses: nat)
    requires state <= REPEAT && presses >= 2
    ensures Repeated(state, presses) == REPEAT
    decreases presses
  {
    if presses > 2 {
      HeldKeyRepeats(NextKeyState(state, PRESS), presses - 1);
    }
  }

  /** The state after `n` press messages. */
  function Repeated(state: Byte, n: nat): Byte
    decreases n
  {
    if n == 0 then state else Repeated(NextKeyState(state, PRESS), n - 1)
  }

  /** The scan code, key and action a key message is decoded into reach the key callback unchanged. */
  lemma KeyMessageRecovers(repeat: U16, scancode: Byte, extended: bool, wasDown: bool, released: bool)
    ensures var lParam := Win32Window.KeyMessageLParam(repeat, scancode, extended, wasDown, released);
      Win32Window.ScancodeOf(lParam) == scancode + (if extended then 0x100 else 0) &&
      Win32Window.KeyActionOf(lParam) == (if released then RELEASE else PRESS)
  {
    Win32Window.KeyMessageDecodes(repeat, scancode, extended, wasDown, released);
  }

  /** The cursor coordinates decode the two signed words packed by MAKELPARAM. */
  lemma CursorRoundTrip(x: I16, y: I16)
    ensures Win32Window.CursorOf((if x < 0 then x + TWO16 else x) + (if y < 0 then y + TWO16 else y) * TWO16) == (x, y)
  {
    var lo := if x < 0 then x + TWO16 else x;
    var hi := if y < 0 then y + TWO16 else y;
    assert (lo + hi * TWO16) / TWO16 == hi;
    assert (lo + hi * TWO16) % TWO16 == lo;
  }
}
