/**
 * The window record of the application generation (src/minimal/window.c):
 * one action byte per GLFW key and mouse button, three one-bit flags, the
 * size, the owning application, and the MinimalCall* helpers that update the
 * record, invoke the registered callbacks and forward an event to the
 * application. Callback invocations are appended to `trace`, in order; the
 * forwarded events land in the application's `received`.
 *
 * The validators (src/minimal/common.c) take an int16_t key and an int8_t
 * button, but the helpers and getters pass them a uint32_t: a code is
 * truncated before it is checked and then used untruncated as an index.
 * KeyValidAsCalled and ButtonValidAsCalled model that check as written;
 * the window itself guards its arrays with the intended range checks
 * KeyInRange and ButtonInRange.
 */
module AppWindow {
  import opened Common
  import opened Words
  import AppEvent

  const KEY_UNKNOWN: int := -1
  const KEY_FIRST: int := 32
  const KEY_LAST: int := 348
  const MOUSE_BUTTON_1: int := 0
  const MOUSE_BUTTON_LAST: int := 7

  const RELEASE: Byte := 0
  const PRESS: Byte := 1

  /** minimalKeycodeValid, on its int16_t parameter. */
  predicate KeycodeValid(keycode: I16)
  {
    KEY_FIRST <= keycode <= KEY_LAST
  }

  /** minimalMouseButtonValid, on its int8_t parameter. */
  predicate MouseButtonValid(button: I8)
  {
    MOUSE_BUTTON_1 <= button <= MOUSE_BUTTON_LAST
  }

  /** The check as the helpers make it: the uint32_t key converted to int16_t, then validated. */
  predicate KeyValidAsCalled(key: U32)
  {
    KeycodeValid(ToI16(key))
  }

  /** The check as the helpers make it: the uint32_t button converted to int8_t, then validated. */
  predicate ButtonValidAsCalled(button: U32)
  {
    MouseButtonValid(ToI8(button))
  }

  /** The intended key check: the key itself indexes key_state. */
  predicate KeyInRange(key: U32)
  {
    KEY_FIRST <= key <= KEY_LAST
  }

  /** The intended button check: the button itself indexes mouse_buttons. */
  predicate ButtonInRange(button: U32)
  {
    MOUSE_BUTTON_1 <= button <= MOUSE_BUTTON_LAST
  }

  /** The window callbacks that can be registered. */
  datatype Hook = Size | Close | Key | Character | MButton | Scroll | CursorPos | Maximize | Minimize

  /** What the window calls out to. */
  datatype Call =
    | KeyCalled(key: U32, scancode: U32, action: U32, mods: U32)
    | CharCalled(codepoint: U32, mods: U32)
    | MButtonCalled(button: U32, action: U32, mods: U32, x: I32, y: I32)
    | CursorPosCalled(posX: U32, posY: U32)
    | ScrollCalled(h: I32, v: I32)
    | SizeCalled(width: U32, height: U32)
    | MinimizeCalled(minimized: I8)
    | MaximizeCalled(maximized: I8)

  /** MinimalWindow */
  class Window {
    var app: AppEvent.App?
    var keyState: array<Byte>
    var mouseButtons: array<Byte>
    /** The three one-bit flags. */
    var shouldClose: int
    var maximized: int
    var minimized: int
    var width: U32
    var height: U32
    /** The callbacks that are set (non-NULL); src/minimal has no setter for them, so minimalCreateWindow's NULLs stay. */
    var hooks: set<Hook>
    var trace: seq<Call>

    ghost predicate Valid()
      reads this
    {
      keyState.Length == KEY_LAST + 1 && mouseButtons.Length == MOUSE_BUTTON_LAST + 1 &&
      0 <= shouldClose <= 1 && 0 <= maximized <= 1 && 0 <= minimized <= 1
    }

    /**
     * minimalCreateWindow, once the allocation succeeded: the requested
     * size, the flags clear, no application, every key and button released
     * and no callbacks.
     */
    constructor (w: U32, h: U32)
      ensures Valid()
      ensures width == w && height == h
      ensures shouldClose == 0 && maximized == 0 && minimized == 0
      ensures app == null && hooks == {} && trace == []
      ensures forall k :: 0 <= k < keyState.Length ==> keyState[k] == RELEASE
      ensures forall b :: 0 <= b < mouseButtons.Length ==> mouseButtons[b] == RELEASE
    {
      width, height := w, h;
      shouldClose, maximized, minimized := 0, 0, 0;
      app := null;
      keyState := new Byte[KEY_LAST + 1](_ => RELEASE);
      mouseButtons := new Byte[MOUSE_BUTTON_LAST + 1](_ => RELEASE);
      hooks := {};
      trace := [];
    }

    /** The call a hook makes if it is set. */
    function IfHooked(hook: Hook, call: Call): seq<Call>
      reads this
    {
      if hook in hooks then [call] else []
    }

    /** minimalWindowSetApp */
    method SetApp(app: AppEvent.App?)
      modifies this`app
      ensures this.app == app
    {
      this.app := app;
    }

    /** MinimalCallChar */
    method CallChar(codepoint: U32, mods: U32)
      requires app != null
      modifies this`trace, app`received
      ensures trace == old(trace) + IfHooked(Character, CharCalled(codepoint, mods))
      ensures app.received == old(app.received) + AppEvent.Forwarded(app.onEvent,
        EventRecord(AppEvent.EVENT_CHAR, codepoint, 0, ToI32(mods)))
    {
      if Character in hooks {
        trace := trace + [CharCalled(codepoint, mods)];
      }
      app.DispatchEvent(AppEvent.EVENT_CHAR, codepoint, 0, ToI32(mods));
    }

    /** MinimalCallKey: stores the action byte of a key in range, calls back and forwards the key event. */
    method CallKey(key: U32, scancode: U32, action: U32, mods: U32)
      requires Valid() && app != null
      modifies keyState, this`trace, app`received
      ensures Valid()
      ensures keyState[..] == if KeyInRange(key) then old(keyState[..])[key := ToU8(action)] else old(keyState[..])
      ensures KeyInRange(key) ==> GetKeyState(this, key) == ToI8(ToU8(action))
      ensures forall k: U32 :: k != key ==> GetKeyState(this, k) == old(GetKeyState(this, k))
      ensures trace == old(trace) + IfHooked(Key, KeyCalled(key, scancode, action, mods))
      ensures app.received == old(app.received) + AppEvent.Forwarded(app.onEvent,
        EventRecord(AppEvent.EVENT_KEY, key, ToI32(action), ToI32(mods)))
    {
      if KeyInRange(key) {
        keyState[key] := ToU8(action);
      }
      if Key in hooks {
        trace := trace + [KeyCalled(key, scancode, action, mods)];
      }
      app.DispatchEvent(AppEvent.EVENT_KEY, key, ToI32(action), ToI32(mods));
    }

    /** MinimalCallMouseButton: stores the action byte of a button in range and forwards the packed word. */
    method CallMouseButton(button: U32, action: U32, mods: U32, x: I32, y: I32)
      requires Valid() && app != null
      modifies mouseButtons, this`trace, app`received
      ensures Valid()
      ensures mouseButtons[..] == if ButtonInRange(button)
        then old(mouseButtons[..])[button := ToU8(action)]
        else old(mouseButtons[..])
      ensures ButtonInRange(button) ==> GetMouseButtonState(this, button) == ToI8(ToU8(action))
      ensures forall b: U32 :: b != button ==> GetMouseButtonState(this, b) == old(GetMouseButtonState(this, b))
      ensures trace == old(trace) + IfHooked(MButton, MButtonCalled(button, action, mods, x, y))
      ensures app.received == old(app.received) + AppEvent.Forwarded(app.onEvent,
        EventRecord(AppEvent.EVENT_MOUSE_BUTTON, MakeMouseU(button, action), x, y))
    {
      if ButtonInRange(button) {
        mouseButtons[button] := ToU8(action);
      }
      if MButton in hooks {
        trace := trace + [MButtonCalled(button, action, mods, x, y)];
      }
      app.DispatchEvent(AppEvent.EVENT_MOUSE_BUTTON, MakeMouseU(button, action), x, y);
    }

    /** MinimalCallCursorPos */
    method CallCursorPos(x: U32, y: U32)
      requires app != null
      modifies this`trace, app`received
      ensures trace == old(trace) + IfHooked(CursorPos, CursorPosCalled(x, y))
      ensures app.received == old(app.received) + AppEvent.Forwarded(app.onEvent,
        EventRecord(AppEvent.EVENT_MOUSE_MOVED, 0, ToI32(x), ToI32(y)))
    {
      if CursorPos in hooks {
        trace := trace + [CursorPosCalled(x, y)];
      }
      app.DispatchEvent(AppEvent.EVENT_MOUSE_MOVED, 0, ToI32(x), ToI32(y));
    }

    /** MinimalCallMouseScroll */
    method CallMouseScroll(h: I32, v: I32)
      requires app != null
      modifies this`trace, app`received
      ensures trace == old(trace) + IfHooked(Scroll, ScrollCalled(h, v))
      ensures app.received == old(app.received) + AppEvent.Forwarded(app.onEvent,
        EventRecord(AppEvent.EVENT_MOUSE_SCROLLED, 0, h, v))
    {
      if Scroll in hooks {
        trace := trace + [ScrollCalled(h, v)];
      }
      app.DispatchEvent(AppEvent.EVENT_MOUSE_SCROLLED, 0, h, v);
    }

    /** MinimalCallWindowSize: the new size is stored before the callback and the event see it. */
    method CallWindowSize(w: U32, h: U32)
      requires app != null
      modifies this`width, this`height, this`trace, app`received
      ensures width == w && height == h
      ensures trace == old(trace) + IfHooked(Size, SizeCalled(w, h))
      ensures app.received == old(app.received) + AppEvent.Forwarded(app.onEvent,
        EventRecord(AppEvent.EVENT_WINDOW_SIZE, 0, ToI32(w), ToI32(h)))
    {
      width := w;
      height := h;
      if Size in hooks {
        trace := trace + [SizeCalled(w, h)];
      }
      app.DispatchEvent(AppEvent.EVENT_WINDOW_SIZE, 0, ToI32(w), ToI32(h));
    }

    /** MinimalCallWindowMinimize: the callback receives the new flag while the window still holds the old one; the bit-field then keeps the low bit. */
    method CallWindowMinimize(flag: I8)
      requires Valid()
      modifies this`minimized, this`trace
      ensures Valid()
      ensures trace == old(trace) + IfHooked(Minimize, MinimizeCalled(flag))
      ensures minimized == LowBit(flag)
    {
      if Minimize in hooks {
        trace := trace + [MinimizeCalled(flag)];
      }
      minimized := LowBit(flag);
    }

    /** MinimalCallWindowMaximize: the callback receives the new flag while the window still holds the old one; the bit-field then keeps the low bit. */
    method CallWindowMaximize(flag: I8)
      requires Valid()
      modifies this`maximized, this`trace
      ensures Valid()
      ensures trace == old(trace) + IfHooked(Maximize, MaximizeCalled(flag))
      ensures maximized == LowBit(flag)
    {
      if Maximize in hooks {
        trace := trace + [MaximizeCalled(flag)];
      }
      maximized := LowBit(flag);
    }

    /** minimalGetWindowWidth */
    function Width(): U32
      reads this
    {
      width
    }

    /** minimalGetWindowHeigth */
    function Height(): U32
      reads this
    {
      height
    }

    /** minimalShouldCloseWindow */
    function ShouldClose(): int
      reads this
    {
      shouldClose
    }

    /** minimalCloseWindow */
    method CloseWindow()
      requires Valid()
      modifies this`shouldClose
      ensures Valid() && ShouldClose() == 1
    {
      shouldClose := 1;
    }

    /** minimalWindowMinimize: the flag keeps the low bit of the byte. */
    method SetMinimized(flag: Byte)
      requires Valid()
      modifies this`minimized
      ensures Valid() && IsMinimized() == LowBit(flag)
    {
      minimized := LowBit(flag);
    }

    /** minimalWindowMaximize: the flag keeps the low bit of the byte. */
    method SetMaximized(flag: Byte)
      requires Valid()
      modifies this`maximized
      ensures Valid() && IsMaximized() == LowBit(flag)
    {
      maximized := LowBit(flag);
    }

    /** minimalWindowIsMinimized */
    function IsMinimized(): int
      reads this
    {
      minimized
    }

    /** minimalWindowIsMaximized */
    function IsMaximized(): int
      reads this
    {
      maximized
    }
  }

  /** minimalGetKeyState with the intended range check: the stored byte of a key in range of an existing window, read as int8_t, else -1. */
  function GetKeyState(window: Window?, keycode: U32): (r: I8)
    reads window, if window != null then {window.keyState} else {}
    requires window != null ==> window.Valid()
    ensures window == null || !KeyInRange(keycode) ==> r == -1
    ensures window != null && KeyInRange(keycode) ==> r == ToI8(window.keyState[keycode])
  {
    if window != null && KeyInRange(keycode) then ToI8(window.keyState[keycode]) else -1
  }

  /** minimalGetMouseButtonState with the intended range check: the stored byte of a button in range of an existing window, read as int8_t, else -1. */
  function GetMouseButtonState(window: Window?, button: U32): (r: I8)
    reads window, if window != null then {window.mouseButtons} else {}
    requires window != null ==> window.Valid()
    ensures window == null || !ButtonInRange(button) ==> r == -1
    ensures window != null && ButtonInRange(button) ==> r == ToI8(window.mouseButtons[button])
  {
    if window != null && ButtonInRange(button) then ToI8(window.mouseButtons[button]) else -1
  }

  // ---------------------------------------------------------------------------
  // Properties

  /**
   * The check as written accepts exactly the keys whose low 16 bits are in
   * range; it agrees with the intended check below 2^16, and 0x10020
   * passes it although it is far past the end of key_state.
   */
  lemma TruncatedKeyPasses(key: U32)
    ensures KeyValidAsCalled(key) <==> KEY_FIRST <= key % TWO16 <= KEY_LAST
    ensures KeyInRange(key) <==> KeyValidAsCalled(key) && key < TWO16
    ensures KeyValidAsCalled(0x1_0020) && !KeyInRange(0x1_0020) && 0x1_0020 >= KEY_LAST + 1
  {
    assert ToI16(0x1_0020) == 0x20;
  }

  /**
   * The button check as written accepts exactly the buttons whose low byte
   * is in range; 0x100 passes it although mouse_buttons has 8 entries.
   */
  lemma TruncatedButtonPasses(button: U32)
    ensures ButtonValidAsCalled(button) <==> button % TWO8 <= MOUSE_BUTTON_LAST
    ensures ButtonInRange(button) <==> ButtonValidAsCalled(button) && button < TWO8
    ensures ButtonValidAsCalled(0x100) && !ButtonInRange(0x100)
  {
    assert ToI8(0x100) == 0;
  }
}
