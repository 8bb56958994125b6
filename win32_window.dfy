/**
 * The window record of the Win32 generation (src/Minimal/MinimalWindow.c):
 * per-key state records advanced once per frame, the mouse button bytes, the
 * size and the minimised/maximised flags, and the MinimalCall* helpers that
 * update them, invoke the registered callbacks and forward an event to the
 * dispatcher. Every callback invocation, dispatch and mouse capture change is
 * appended to `trace`, in order.
 */
module Win32Window {
  import opened Common
  import opened Words
  import KeyTable
  import Win32Util
  import Win32Event

  const RELEASE: Byte := 0
  const PRESS: Byte := 1

  /** The WM_SIZE request types. */
  const SIZE_RESTORED: int := 0
  const SIZE_MINIMIZED: int := 1
  const SIZE_MAXIMIZED: int := 2

  /** MinimalInputState: the state this frame, last frame, and the latest reported action. */
  datatype KeyState = KeyState(current: Byte, previous: Byte, action: Byte)

  /** The window callbacks that can be registered. */
  datatype Hook = Size | Close | Key | Character | MButton | Scroll | CursorPos | Maximize | Iconify

  type Callback = nat

  /** What the window calls out to. */
  datatype Call =
    | KeyCalled(key: U32, scancode: U32, action: U32, mods: U32)
    | CharCalled(codepoint: U32, mods: U32)
    | MButtonCalled(button: U32, action: U32, mods: U32, x: I32, y: I32)
    | CursorPosCalled(posX: U32, posY: U32)
    | ScrollCalled(h: I32, v: I32)
    | SizeCalled(width: U32, height: U32)
    | IconifyCalled(iconified: Byte)
    | MaximizeCalled(maximized: Byte)
    | Dispatched(dispatch: Callback, handler: nat, event: EventRecord)
    | CaptureSet
    | CaptureReleased

  /** One frame's advance of a key record: the action becomes the state, the state the previous one. */
  function Advance(s: KeyState): KeyState
  {
    KeyState(s.action, s.current, s.action)
  }

  /** The buttons MinimalGetMouseButton reports. */
  const MOUSE_BUTTON_LEFT: U32 := 0
  const MOUSE_BUTTON_RIGHT: U32 := 1
  const MOUSE_BUTTON_MIDDLE: U32 := 2
  const MOUSE_BUTTON_4: U32 := 3
  const MOUSE_BUTTON_5: U32 := 4

  /** The mouse button messages by button; whether it went down or up is passed beside. */
  datatype MouseMessage = LeftButton | RightButton | MiddleButton | XButton1 | XButton2

  /** MinimalGetMouseButton: the button a mouse button message names. */
  function GetMouseButton(msg: MouseMessage): (b: U32)
    ensures Win32Util.MouseButtonValid(b)
    ensures b == MOUSE_BUTTON_4 || b == MOUSE_BUTTON_5 <==> msg == XButton1 || msg == XButton2
  {
    match msg
    case LeftButton => MOUSE_BUTTON_LEFT
    case RightButton => MOUSE_BUTTON_RIGHT
    case MiddleButton => MOUSE_BUTTON_MIDDLE
    case XButton1 => MOUSE_BUTTON_4
    case XButton2 => MOUSE_BUTTON_5
  }

  /** GET_X_LPARAM / GET_Y_LPARAM: the low and high words of lParam read as signed 16-bit values. */
  function CursorOf(lParam: int): (I16, I16)
  {
    (ToI16(lParam), ToI16(lParam / TWO16))
  }

  /** WHEEL_DELTA: one notch of the mouse wheel. */
  const WHEEL_DELTA: int := 120

  /**
   * MINIMAL_GET_SCROLL: the high word of wParam read as a signed 16-bit
   * value, divided by WHEEL_DELTA as a float and converted back to an int,
   * which truncates toward zero. A 16-bit value over 120 never lies within
   * float rounding of an integer it is not equal to, so the integer
   * quotient truncated toward zero is the same number.
   */
  function ScrollOf(wParam: int): (r: I32)
    ensures var delta := ToI16(wParam / TWO16);
      (delta >= 0 ==> 0 <= r * WHEEL_DELTA <= delta < r * WHEEL_DELTA + WHEEL_DELTA) &&
      (delta < 0 ==> r * WHEEL_DELTA - WHEEL_DELTA < delta <= r * WHEEL_DELTA <= 0)
  {
    var delta: int := ToI16(wParam / TWO16);
    if delta >= 0 then delta / WHEEL_DELTA else -((-delta) / WHEEL_DELTA)
  }

  /** The index MinimalCheckMouseButtons stops at: the first pressed button, or one past the last. */
  function FirstPressed(buttons: seq<Byte>): (i: nat)
    ensures i <= |buttons|
    ensures i < |buttons| ==> buttons[i] == PRESS
    ensures forall j :: 0 <= j < i ==> buttons[j] != PRESS
  {
    if buttons == [] then 0
    else if buttons[0] == PRESS then 0
    else 1 + FirstPressed(buttons[1..])
  }

  /** The minimised and maximised flags after a WM_SIZE request, given whether the window was maximised. */
  function SizeFlags(request: int, wasMaximized: bool): (Byte, Byte)
  {
    (if request == SIZE_MINIMIZED then 1 else 0,
     if request == SIZE_MAXIMIZED || (wasMaximized && request != SIZE_RESTORED) then 1 else 0)
  }

  /** The scan code field of a key message's lParam: bits 16..24, the extended-key flag as bit 8. */
  function ScancodeOf(lParam: int): (s: U32)
    ensures s < KeyTable.TABLE_SIZE
  {
    (lParam / TWO16) % 512
  }

  /** The transition bit of a key message: set for a release. */
  function KeyActionOf(lParam: int): Byte
  {
    if (lParam / 0x8000_0000) % 2 == 1 then RELEASE else PRESS
  }

  /**
   * The lParam Windows sends with a key message: the repeat count in bits
   * 0..15, the scan code in 16..23, the extended flag in 24, the previous key
   * state in 30 and the transition (1 = released) in 31; bits 25..29 clear.
   */
  function KeyMessageLParam(repeat: U16, scancode: Byte, extended: bool, wasDown: bool, released: bool): int
  {
    repeat + scancode * TWO16 + (if extended then 0x100_0000 else 0)
      + (if wasDown then 0x4000_0000 else 0) + (if released then 0x8000_0000 else 0)
  }

  class Window {
    var keyState: array<KeyState>
    var mouseButtons: array<Byte>
    var shouldClose: Byte
    var maximized: Byte
    var iconified: Byte
    var width: U32
    var height: U32
    var eventHandler: nat
    var dispatch: Option<Callback>
    /** The callbacks that are set (non-NULL). */
    var hooks: set<Hook>
    var trace: seq<Call>

    ghost predicate Valid()
      reads this
    {
      keyState.Length == KeyTable.KEY_LAST + 1 && mouseButtons.Length == Win32Util.MOUSE_BUTTON_LAST + 1
    }

    /**
     * MinimalCreateWindow, once the OS window and the GL context exist. The
     * source never initialises the two flags, the maximize and iconify
     * callbacks or the dispatcher; whatever the allocation held is passed in.
     */
    constructor (w: U32, h: U32, maximized: Byte, iconified: Byte, staleHooks: set<Hook>,
                 eventHandler: nat, dispatch: Option<Callback>)
      ensures Valid()
      ensures width == w && height == h && shouldClose == 0
      ensures forall k :: 0 <= k < keyState.Length ==> keyState[k] == KeyState(0, 0, 0)
      ensures forall b :: 0 <= b < mouseButtons.Length ==> mouseButtons[b] == RELEASE
      ensures hooks == staleHooks * {Maximize, Iconify}
      ensures this.maximized == maximized && this.iconified == iconified
      ensures this.eventHandler == eventHandler && this.dispatch == dispatch
      ensures trace == []
    {
      width, height := w, h;
      shouldClose := 0;
      keyState := new KeyState[KeyTable.KEY_LAST + 1](_ => KeyState(0, 0, 0));
      mouseButtons := new Byte[Win32Util.MOUSE_BUTTON_LAST + 1](_ => RELEASE);
      hooks := staleHooks * {Maximize, Iconify};
      this.maximized, this.iconified := maximized, iconified;
      this.eventHandler, this.dispatch := eventHandler, dispatch;
      trace := [];
    }

    /** The call a hook makes if it is set. */
    function IfHooked(hook: Hook, call: Call): seq<Call>
      reads this
    {
      if hook in hooks then [call] else []
    }

    /** The dispatch of an event, if a dispatcher is set. */
    function DispatchOf(kind: U32, uParam: U32, lParam: I32, rParam: I32): seq<Call>
      reads this
    {
      if dispatch.Some? then [Dispatched(dispatch.value, eventHandler, EventRecord(kind, uParam, lParam, rParam))] else []
    }

    /** MinimalWindowDispatchEvent */
    method DispatchEvent(kind: U32, uParam: U32, lParam: I32, rParam: I32)
      modifies this`trace
      ensures trace == old(trace) + DispatchOf(kind, uParam, lParam, rParam)
    {
      if dispatch.Some? {
        trace := trace + [Dispatched(dispatch.value, eventHandler, EventRecord(kind, uParam, lParam, rParam))];
      }
    }

    /** MinimalCallChar */
    method CallChar(codepoint: U32, mods: U32)
      modifies this`trace
      ensures trace == old(trace) + IfHooked(Character, CharCalled(codepoint, mods))
        + DispatchOf(Win32Event.EVENT_CHAR, codepoint, 0, ToI32(mods))
    {
      if Character in hooks {
        trace := trace + [CharCalled(codepoint, mods)];
      }
      DispatchEvent(Win32Event.EVENT_CHAR, codepoint, 0, ToI32(mods));
    }

    /**
     * MinimalCallKey: a valid key records the action (as a byte) in its
     * state record; current and previous are left to the frame update. The
     * table's 0xFFFFFFFF changes nothing, but is still reported.
     */
    method CallKey(key: U32, scancode: U32, action: U32, mods: U32)
      requires Valid()
      modifies keyState, this`trace
      ensures Valid()
      ensures keyState[..] == if KeyTable.KeycodeValid(key)
        then old(keyState[..])[key := old(keyState[key]).(action := ToU8(action))]
        else old(keyState[..])
      ensures trace == old(trace) + IfHooked(Key, KeyCalled(key, scancode, action, mods))
        + DispatchOf(Win32Event.EVENT_KEY, key, ToI32(action), ToI32(mods))
    {
      if KeyTable.KeycodeValid(key) {
        keyState[key] := keyState[key].(action := ToU8(action));
      }
      if Key in hooks {
        trace := trace + [KeyCalled(key, scancode, action, mods)];
      }
      DispatchEvent(Win32Event.EVENT_KEY, key, ToI32(action), ToI32(mods));
    }

    /** MinimalCallMouseButton: stores the action of a valid button and dispatches the packed word. */
    method CallMouseButton(button: U32, action: U32, mods: U32, x: I32, y: I32)
      requires Valid()
      modifies mouseButtons, this`trace
      ensures Valid()
      ensures mouseButtons[..] == if Win32Util.MouseButtonValid(button)
        then old(mouseButtons[..])[button := ToU8(action)]
        else old(mouseButtons[..])
      ensures trace == old(trace) + IfHooked(MButton, MButtonCalled(button, action, mods, x, y))
        + DispatchOf(Win32Event.EVENT_MOUSE_BUTTON, MakeMouseU(button, action), x, y)
    {
      if Win32Util.MouseButtonValid(button) {
        mouseButtons[button] := ToU8(action);
      }
      if MButton in hooks {
        trace := trace + [MButtonCalled(button, action, mods, x, y)];
      }
      DispatchEvent(Win32Event.EVENT_MOUSE_BUTTON, MakeMouseU(button, action), x, y);
    }

    /** MinimalCallCursorPos */
    method CallCursorPos(x: U32, y: U32)
      modifies this`trace
      ensures trace == old(trace) + IfHooked(CursorPos, CursorPosCalled(x, y))
        + DispatchOf(Win32Event.EVENT_MOUSE_MOVED, 0, ToI32(x), ToI32(y))
    {
      if CursorPos in hooks {
        trace := trace + [CursorPosCalled(x, y)];
      }
      DispatchEvent(Win32Event.EVENT_MOUSE_MOVED, 0, ToI32(x), ToI32(y));
    }

    /** MinimalCallMouseScroll */
    method CallMouseScroll(h: I32, v: I32)
      modifies this`trace
      ensures trace == old(trace) + IfHooked(Scroll, ScrollCalled(h, v))
        + DispatchOf(Win32Event.EVENT_MOUSE_SCROLLED, 0, h, v)
    {
      if Scroll in hooks {
        trace := trace + [ScrollCalled(h, v)];
      }
      DispatchEvent(Win32Event.EVENT_MOUSE_SCROLLED, 0, h, v);
    }

    /** MinimalCallWindowSize: the new size is stored before anyone is told. */
    method CallWindowSize(w: U32, h: U32)
      modifies this`width, this`height, this`trace
      ensures width == w && height == h
      ensures trace == old(trace) + IfHooked(Size, SizeCalled(w, h))
        + DispatchOf(Win32Event.EVENT_WINDOW_SIZE, 0, ToI32(w), ToI32(h))
    {
      width := w;
      height := h;
      if Size in hooks {
        trace := trace + [SizeCalled(w, h)];
      }
      DispatchEvent(Win32Event.EVENT_WINDOW_SIZE, 0, ToI32(w), ToI32(h));
    }

    /** MinimalCallWindowIconify: the callback first, then the flag. */
    method CallWindowIconify(flag: Byte)
      modifies this`iconified, this`trace
      ensures iconified == flag
      ensures trace == old(trace) + IfHooked(Iconify, IconifyCalled(flag))
    {
      if Iconify in hooks {
        trace := trace + [IconifyCalled(flag)];
      }
      iconified := flag;
    }

    /** MinimalCallWindowMaximize */
    method CallWindowMaximize(flag: Byte)
      modifies this`maximized, this`trace
      ensures maximized == flag
      ensures trace == old(trace) + IfHooked(Maximize, MaximizeCalled(flag))
    {
      if Maximize in hooks {
        trace := trace + [MaximizeCalled(flag)];
      }
      maximized := flag;
    }

    /**
     * The WM_SIZE case of MinimalWindowProc: the flags follow SizeFlags, each
     * hook hears only of a flag that changed, and the size is taken from the
     * two low words of lParam.
     */
    method SizeMessage(request: int, lParam: int)
      modifies this`iconified, this`maximized, this`width, this`height, this`trace
      ensures (iconified, maximized) == SizeFlags(request, old(maximized) != 0)
      ensures width == LoWord(ToU32(lParam)) && height == HiWord(ToU32(lParam))
      ensures trace == old(trace)
        + (if old(iconified) != iconified then IfHooked(Iconify, IconifyCalled(iconified)) else [])
        + (if old(maximized) != maximized then IfHooked(Maximize, MaximizeCalled(maximized)) else [])
        + IfHooked(Size, SizeCalled(width, height))
        + DispatchOf(Win32Event.EVENT_WINDOW_SIZE, 0, ToI32(width), ToI32(height))
    {
      var (nowIconified, nowMaximized) := SizeFlags(request, maximized != 0);
      if iconified != nowIconified {
        CallWindowIconify(nowIconified);
      }
      if maximized != nowMaximized {
        CallWindowMaximize(nowMaximized);
      }
      CallWindowSize(LoWord(ToU32(lParam)), HiWord(ToU32(lParam)));
    }

    /**
     * The key-message case of MinimalWindowProc: the 9-bit scan code is
     * translated through the key table and the action read from bit 31. The
     * modifier state (read from the OS) is passed in.
     */
    method KeyMessage(table: KeyTable.ScancodeTable, lParam: int, mods: U32)
      requires Valid() && table.Valid() && table.Created()
      modifies keyState, this`trace
      ensures Valid()
      ensures var key := table.TranslateKeyU32(ScancodeOf(lParam));
        keyState[..] == (if KeyTable.KeycodeValid(key)
          then old(keyState[..])[key := old(keyState[key]).(action := KeyActionOf(lParam))]
          else old(keyState[..])) &&
        trace == old(trace) + IfHooked(Key, KeyCalled(key, ScancodeOf(lParam), KeyActionOf(lParam), mods))
          + DispatchOf(Win32Event.EVENT_KEY, key, KeyActionOf(lParam), ToI32(mods))
    {
      var scancode := ScancodeOf(lParam);
      var keycode := table.TranslateKeyU32(scancode);
      var action := KeyActionOf(lParam);
      CallKey(keycode, scancode, action, mods);
    }

    /** MinimalCheckMouseButtons: the first button held down, or MOUSE_BUTTON_LAST + 1. */
    method CheckMouseButtons() returns (i: nat)
      requires Valid()
      ensures i == FirstPressed(mouseButtons[..])
      ensures i <= Win32Util.MOUSE_BUTTON_LAST + 1
      ensures i > Win32Util.MOUSE_BUTTON_LAST <==> forall b :: 0 <= b < mouseButtons.Length ==> mouseButtons[b] != PRESS
    {
      i := 0;
      while i <= Win32Util.MOUSE_BUTTON_LAST
        invariant i <= Win32Util.MOUSE_BUTTON_LAST + 1
        invariant forall j :: 0 <= j < i ==> mouseButtons[j] != PRESS
      {
        if mouseButtons[i] == PRESS {
          break;
        }
        i := i + 1;
      }
      FirstPressedUnique(mouseButtons[..], i);
    }

    /**
     * The mouse-button case of MinimalWindowProc: the mouse is captured when
     * no button was down before the event and released when none is down
     * after it.
     */
    method MouseButtonMessage(button: U32, action: U32, mods: U32, x: I32, y: I32)
      requires Valid()
      modifies mouseButtons, this`trace
      ensures Valid()
      ensures mouseButtons[..] == if Win32Util.MouseButtonValid(button)
        then old(mouseButtons[..])[button := ToU8(action)]
        else old(mouseButtons[..])
      ensures trace == old(trace)
        + (if PRESS !in old(mouseButtons[..]) then [CaptureSet] else [])
        + IfHooked(MButton, MButtonCalled(button, action, mods, x, y))
        + DispatchOf(Win32Event.EVENT_MOUSE_BUTTON, MakeMouseU(button, action), x, y)
        + (if PRESS !in mouseButtons[..] then [CaptureReleased] else [])
    {
      var before := CheckMouseButtons();
      if before > Win32Util.MOUSE_BUTTON_LAST {
        trace := trace + [CaptureSet];
      }
      CallMouseButton(button, action, mods, x, y);
      var after := CheckMouseButtons();
      if after > Win32Util.MOUSE_BUTTON_LAST {
        trace := trace + [CaptureReleased];
      }
    }

    /**
     * The mouse-button case of MinimalWindowProc from the message itself:
     * MinimalGetMouseButton names the button, a button-down message gives PRESS and a button-up message
     * RELEASE, and the position is the signed client coordinates of lParam.
     * The result is 1 only for the X buttons.
     */
    method MouseButtonProc(msg: MouseMessage, down: bool, mods: U32, lParam: int) returns (result: int)
      requires Valid()
      modifies mouseButtons, this`trace
      ensures Valid()
      ensures mouseButtons[..] == old(mouseButtons[..])[GetMouseButton(msg) := if down then PRESS else RELEASE]
      ensures var (x, y) := CursorOf(lParam);
        var button := GetMouseButton(msg);
        var action: U32 := if down then PRESS else RELEASE;
        trace == old(trace)
        + (if PRESS !in old(mouseButtons[..]) then [CaptureSet] else [])
        + IfHooked(MButton, MButtonCalled(button, action, mods, x, y))
        + DispatchOf(Win32Event.EVENT_MOUSE_BUTTON, MakeMouseU(button, action), x, y)
        + (if PRESS !in mouseButtons[..] then [CaptureReleased] else [])
      ensures result == if msg == XButton1 || msg == XButton2 then 1 else 0
    {
      var button := GetMouseButton(msg);
      var action: U32 := if down then PRESS else RELEASE;
      var (x, y) := CursorOf(lParam);
      MouseButtonMessage(button, action, mods, x, y);
      result := if msg == XButton1 || msg == XButton2 then 1 else 0;
    }

    /**
     * The WM_MOUSEMOVE case: the signed client coordinates are passed to
     * MinimalCallCursorPos as unsigned words, and reach the dispatched
     * event signed again.
     */
    method CursorMessage(lParam: int)
      modifies this`trace
      ensures var (x, y) := CursorOf(lParam);
        trace == old(trace) + IfHooked(CursorPos, CursorPosCalled(ToU32(x), ToU32(y)))
        + DispatchOf(Win32Event.EVENT_MOUSE_MOVED, 0, x, y)
    {
      var (x, y) := CursorOf(lParam);
      CallCursorPos(ToU32(x), ToU32(y));
    }

    /** The WM_MOUSEWHEEL and WM_MOUSEHWHEEL cases: whole notches, vertical or horizontal. */
    method WheelMessage(horizontal: bool, wParam: int)
      modifies this`trace
      ensures var notches := ScrollOf(wParam);
        var (h, v) := if horizontal then (notches, 0) else (0, notches);
        trace == old(trace) + IfHooked(Scroll, ScrollCalled(h, v)) + DispatchOf(Win32Event.EVENT_MOUSE_SCROLLED, 0, h, v)
    {
      if horizontal {
        CallMouseScroll(ScrollOf(wParam), 0);
      } else {
        CallMouseScroll(0, ScrollOf(wParam));
      }
    }

    /** MinimalWindowUpdateKeyStates: every key record advances by one frame. */
    method UpdateKeyStates()
      requires Valid()
      modifies keyState
      ensures Valid()
      ensures forall k :: 0 <= k < keyState.Length ==> keyState[k] == Advance(old(keyState[k]))
    {
      for key := KeyTable.KEY_ESCAPE to KeyTable.KEY_LAST + 1
        invariant forall k :: 0 <= k < key ==> keyState[k] == Advance(old(keyState[k]))
        invariant forall k :: key <= k < keyState.Length ==> keyState[k] == old(keyState[k])
      {
        keyState[key] := keyState[key].(previous := keyState[key].current);
        keyState[key] := keyState[key].(current := keyState[key].action);
      }
    }

    /** MinimalGetWindowWidth */
    function Width(): U32
      reads this
    {
      width
    }

    /** MinimalGetWindowHeigth */
    function Height(): U32
      reads this
    {
      height
    }

    /** MinimalShouldCloseWindow */
    function ShouldClose(): Byte
      reads this
    {
      shouldClose
    }

    /** MinimalCloseWindow */
    method CloseWindow()
      modifies this`shouldClose
      ensures ShouldClose() == 1
    {
      shouldClose := 1;
    }

    /** The Minimal*Callback setters: registers (or, with None, clears) one callback. */
    method SetCallback(hook: Hook, set_: bool)
      modifies this`hooks
      ensures hooks == if set_ then old(hooks) + {hook} else old(hooks) - {hook}
    {
      if set_ {
        hooks := hooks + {hook};
      } else {
        hooks := hooks - {hook};
      }
    }

    /** MinimalSetEventDispatch */
    method SetEventDispatch(handler: nat, dispatch: Option<Callback>)
      modifies this`eventHandler, this`dispatch
      ensures eventHandler == handler && this.dispatch == dispatch
    {
      eventHandler := handler;
      this.dispatch := dispatch;
    }
  }

  /** MinimalWindowGetKeyState: the record of a valid key of an existing window, else NULL. */
  function GetKeyState(window: Window?, keycode: U32): (r: Option<KeyState>)
    reads window, if window != null then {window.keyState} else {}
    requires window != null ==> window.Valid()
    ensures r.Some? <==> window != null && KeyTable.KeycodeValid(keycode)
    ensures r.Some? ==> r.value == window.keyState[keycode]
  {
    if window != null && KeyTable.KeycodeValid(keycode) then Some(window.keyState[keycode]) else None
  }

  /** MinimalWindowGetMouseButtonState: the stored byte read as int8_t, or -1. */
  function GetMouseButtonState(window: Window?, button: U32): (r: I8)
    reads window, if window != null then {window.mouseButtons} else {}
    requires window != null ==> window.Valid()
    ensures window == null || !Win32Util.MouseButtonValid(button) ==> r == -1
    ensures window != null && Win32Util.MouseButtonValid(button) ==> r == ToI8(window.mouseButtons[button])
  {
    if window != null && Win32Util.MouseButtonValid(button) then ToI8(window.mouseButtons[button]) else -1
  }

  // ---------------------------------------------------------------------------
  // Properties

  /** FirstPressed is the only index with its two defining properties. */
  lemma FirstPressedUnique(buttons: seq<Byte>, i: nat)
    requires i <= |buttons|
    requires i < |buttons| ==> buttons[i] == PRESS
    requires forall j :: 0 <= j < i ==> buttons[j] != PRESS
    ensures i == FirstPressed(buttons)
  {
  }

  /** Without a key event in between, two frame updates leave previous, current and action equal. */
  lemma AdvanceTwiceSettles(s: KeyState)
    ensures var t := Advance(Advance(s)); t.previous == t.current == t.action == s.action
    ensures Advance(s).previous == s.current && Advance(s).action == s.action
  {
  }

  /** The WM_SIZE flag rule. */
  lemma SizeFlagRule(request: int, wasMaximized: bool)
    ensures SizeFlags(request, wasMaximized).0 == 1 <==> request == SIZE_MINIMIZED
    ensures request == SIZE_RESTORED ==> SizeFlags(request, wasMaximized) == (0, 0)
    ensures request == SIZE_MAXIMIZED ==> SizeFlags(request, wasMaximized) == (0, 1)
    // Minimising a maximised window keeps it maximised, so restoring it later is noticed.
    ensures request == SIZE_MINIMIZED ==> SizeFlags(request, wasMaximized) == (1, if wasMaximized then 1 else 0)
    // Only a restore or an unmaximised window can end up unmaximised.
    ensures SizeFlags(request, wasMaximized).1 == 0 ==> request == SIZE_RESTORED || (!wasMaximized && request != SIZE_MAXIMIZED)
  {
  }

  /**
   * Decoding a key message recovers the scan code with the extended flag as
   * bit 8, and the action from the transition bit, whatever the repeat count
   * and previous state.
   */
  lemma KeyMessageDecodes(repeat: U16, scancode: Byte, extended: bool, wasDown: bool, released: bool)
    ensures var lParam := KeyMessageLParam(repeat, scancode, extended, wasDown, released);
      ScancodeOf(lParam) == scancode + (if extended then 0x100 else 0) &&
      KeyActionOf(lParam) == (if released then RELEASE else PRESS)
  {
    var lParam := KeyMessageLParam(repeat, scancode, extended, wasDown, released);
    var high := (if extended then 0x100 else 0) + (if wasDown then 0x4000 else 0) + (if released then 0x8000 else 0);
    assert lParam == repeat + (scancode + high) * TWO16;
    assert lParam / TWO16 == scancode + high;
    assert lParam / 0x8000_0000 == (if released then 1 else 0);
  }

  /** A wheel message whose high word is n notches of WHEEL_DELTA scrolls by n, whatever its low word. */
  lemma WheelNotches(n: int, low: U16)
    requires -273 <= n <= 273
    ensures ScrollOf((if n < 0 then n * WHEEL_DELTA + TWO16 else n * WHEEL_DELTA) * TWO16 + low) == n
  {
    var high := if n < 0 then n * WHEEL_DELTA + TWO16 else n * WHEEL_DELTA;
    assert (high * TWO16 + low) / TWO16 == high;
    assert ToI16(high) == n * WHEEL_DELTA;
  }

  /** A key message whose scan code is not in the table reaches the callbacks as the unknown key. */
  lemma UnknownScancodeChangesNoState(table: KeyTable.ScancodeTable, lParam: int)
    requires table.Valid() && table.Created()
    requires KeyTable.KeyOf(ScancodeOf(lParam)) == KeyTable.KEY_UNKNOWN
    ensures table.TranslateKeyU32(ScancodeOf(lParam)) == KeyTable.UNKNOWN_U32
    ensures !KeyTable.KeycodeValid(table.TranslateKeyU32(ScancodeOf(lParam)))
  {
  }
}
