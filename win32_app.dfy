/**
 * The application layer of the Win32 generation (src/Minimal/Minimal.c): the
 * version getters, the debug/vsync settings and their toggles, the event
 * forwarder installed as the window's dispatcher, the start-up sequence of
 * MinimalLoad, and the key and mouse queries on the current context window.
 * The "major.minor" parser it uses is the GLVersion module.
 */
module Win32App {
  import opened Common
  import opened Words
  import GLVersion
  import KeyTable
  import Win32Util
  import Win32Window

  const VERSION_MAJOR: nat := 1
  const VERSION_MINOR: nat := 1
  const VERSION_REVISION: nat := 0

  type Callback = nat

  /** MinimalGetVersion: the three version numbers (each written only when its pointer is non-NULL). */
  function GetVersion(): (nat, nat, nat)
  {
    (VERSION_MAJOR, VERSION_MINOR, VERSION_REVISION)
  }

  /** MinimalGetVersionString: the three numbers stringised and joined with dots. */
  function GetVersionString(): (s: GLVersion.CString)
    ensures s == "1.1.0"
    ensures '.' in s
  {
    GLVersion.Decimal(VERSION_MAJOR) + "." + GLVersion.Decimal(VERSION_MINOR) + "." + GLVersion.Decimal(VERSION_REVISION)
  }

  /** The value `!b` gives for a MinimalBool: 1 for 0, and 0 for anything else. */
  function Not(b: Byte): (r: Byte)
    ensures r == 1 <==> b == 0
    ensures r == 0 || r == 1
  {
    if b == 0 then 1 else 0
  }

  // ---------------------------------------------------------------------------
  // Key and mouse queries on a key record or button state

  /** A key went down between the last two frame updates. */
  predicate Pressed(s: Win32Window.KeyState)
  {
    s.current == Win32Window.PRESS && s.previous == Win32Window.RELEASE
  }

  /** A key went up between the last two frame updates. */
  predicate Released(s: Win32Window.KeyState)
  {
    s.current == Win32Window.RELEASE && s.previous == Win32Window.PRESS
  }

  /** MinimalApp */
  class App {
    var debug: Byte
    var vsync: Byte
    /** on_event, if set */
    var onEvent: Option<Callback>
    var timer: Win32Util.Timer
    /** The GL version requested of the window by MinimalLoad. */
    var glMajor: int
    var glMinor: int
    /** The swap intervals handed to WGL, in order. */
    var swapIntervals: seq<Byte>
    /** The events handed to on_event, in order. */
    var received: seq<EventRecord>

    constructor (onEvent: Option<Callback>, timer: Win32Util.Timer)
      ensures this.onEvent == onEvent && this.timer == timer
      ensures debug == 0 && vsync == 0 && swapIntervals == [] && received == []
    {
      this.onEvent, this.timer := onEvent, timer;
      debug, vsync := 0, 0;
      glMajor, glMinor := 0, 0;
      swapIntervals, received := [], [];
    }

    /**
     * MinimalLoad without the OS side: the two settings are cleared first;
     * a failing MinimalInit stops there; otherwise the GL version string is
     * parsed into the window request; a failing window creation stops
     * there; otherwise the timer is reset and the result is that of
     * on_load, or success when no on_load is set. `onLoad` is None for no
     * callback and otherwise what the callback returns.
     */
    method Load(gl: GLVersion.CString, initOk: bool, windowOk: bool, onLoad: Option<bool>) returns (ok: bool)
      requires initOk ==> '.' in gl
      modifies this`debug, this`vsync, this`glMajor, this`glMinor, timer
      ensures debug == 0 && vsync == 0
      ensures ok <==> initOk && windowOk && (onLoad.None? || onLoad.value)
      ensures initOk ==> (glMajor, glMinor) == GLVersion.GetGLVersion(gl)
      ensures !initOk ==> glMajor == old(glMajor) && glMinor == old(glMinor)
      ensures initOk && windowOk ==> (timer.frames == 0 && timer.fps == 0 && timer.seconds == 0.0 &&
        timer.deltatime == 0.0 && timer.lastframe == 0.0)
      ensures !(initOk && windowOk) ==> unchanged(timer)
    {
      debug := 0;
      vsync := 0;
      if !initOk {
        return false;
      }
      var version := GLVersion.GetGLVersion(gl);
      glMajor, glMinor := version.0, version.1;
      if !windowOk {
        return false;
      }
      timer.Reset();
      return onLoad.None? || onLoad.value;
    }

    /** MinimalEnableDebug */
    method EnableDebug(b: Byte)
      modifies this`debug
      ensures debug == b
    {
      debug := b;
    }

    /** MinimalEnableVsync: sets the swap interval, then records the flag. */
    method EnableVsync(b: Byte)
      modifies this`vsync, this`swapIntervals
      ensures vsync == b && swapIntervals == old(swapIntervals) + [b]
    {
      swapIntervals := swapIntervals + [b];
      vsync := b;
    }

    /** MinimalToggleDebug */
    method ToggleDebug()
      modifies this`debug
      ensures debug == Not(old(debug))
    {
      EnableDebug(Not(debug));
    }

    /** MinimalToggleVsync */
    method ToggleVsync()
      modifies this`vsync, this`swapIntervals
      ensures vsync == Not(old(vsync)) && swapIntervals == old(swapIntervals) + [vsync]
    {
      EnableVsync(Not(vsync));
    }

    /** MinimalGetFps */
    function GetFps(): U32
      reads this, timer
    {
      timer.fps
    }

    /** MinimalDispatchEvent: the event reaches on_event once if it is set. */
    method DispatchEvent(kind: U32, uParam: U32, lParam: I32, rParam: I32)
      modifies this`received
      ensures onEvent.Some? ==> received == old(received) + [EventRecord(kind, uParam, lParam, rParam)]
      ensures onEvent.None? ==> received == old(received)
    {
      if onEvent.Some? {
        received := received + [EventRecord(kind, uParam, lParam, rParam)];
      }
    }
  }

  // ---------------------------------------------------------------------------
  // The queries on the current context window

  /** MinimalKeyPressed */
  predicate KeyPressed(context: Win32Window.Window?, keycode: U32)
    reads context, if context != null then {context.keyState} else {}
    requires context != null ==> context.Valid()
  {
    var state := Win32Window.GetKeyState(context, keycode);
    state.Some? && Pressed(state.value)
  }

  /** MinimalKeyReleased */
  predicate KeyReleased(context: Win32Window.Window?, keycode: U32)
    reads context, if context != null then {context.keyState} else {}
    requires context != null ==> context.Valid()
  {
    var state := Win32Window.GetKeyState(context, keycode);
    state.Some? && Released(state.value)
  }

  /** MinimalKeyDown: the latest reported action, not the frame state. */
  predicate KeyDown(context: Win32Window.Window?, keycode: U32)
    reads context, if context != null then {context.keyState} else {}
    requires context != null ==> context.Valid()
  {
    var state := Win32Window.GetKeyState(context, keycode);
    state.Some? && state.value.action == Win32Window.PRESS
  }

  /** MinimalMouseButtonPressed */
  predicate MouseButtonPressed(context: Win32Window.Window?, button: U32)
    reads context, if context != null then {context.mouseButtons} else {}
    requires context != null ==> context.Valid()
  {
    var state := Win32Window.GetMouseButtonState(context, button);
    state >= 0 && state == Win32Window.PRESS as int
  }

  /** MinimalMouseButtonReleased */
  predicate MouseButtonReleased(context: Win32Window.Window?, button: U32)
    reads context, if context != null then {context.mouseButtons} else {}
    requires context != null ==> context.Valid()
  {
    var state := Win32Window.GetMouseButtonState(context, button);
    state >= 0 && state == Win32Window.RELEASE as int
  }

  // ---------------------------------------------------------------------------
  // Properties

  /** The version string parses, with the GL version parser, back into the first two version numbers. */
  lemma VersionStringParses()
    ensures GLVersion.GetGLVersion(GetVersionString()) == (GetVersion().0, GetVersion().1)
    ensures GetVersion() == (1, 1, 0)
  {
    GLVersion.ThirdComponentIgnored(VERSION_MAJOR, VERSION_MINOR, VERSION_REVISION);
  }

  /** Toggling twice restores a flag exactly when the flag holds 0 or 1; any other stored value comes back as 1. */
  lemma ToggleTwice(b: Byte)
    ensures Not(Not(b)) == b <==> b <= 1
    ensures Not(Not(b)) == (if b == 0 then 0 else 1)
  {
  }

  /** A key query is true only for an existing context and a valid keycode; pressed and released never hold together. */
  lemma KeyQueries(context: Win32Window.Window?, keycode: U32)
    requires context != null ==> context.Valid()
    ensures KeyPressed(context, keycode) <==>
      (context != null && KeyTable.KeycodeValid(keycode) && Pressed(context.keyState[keycode]))
    ensures KeyReleased(context, keycode) <==>
      (context != null && KeyTable.KeycodeValid(keycode) && Released(context.keyState[keycode]))
    ensures !(KeyPressed(context, keycode) && KeyReleased(context, keycode))
    ensures KeyDown(context, keycode) <==>
      (context != null && KeyTable.KeycodeValid(keycode) && context.keyState[keycode].action == Win32Window.PRESS)
  {
  }

  /**
   * Over one frame update, a key reads as pressed exactly when its state
   * was up and the latest action is a press, and as released in the mirror
   * case; a key whose action did not change over two updates reads as
   * neither.
   */
  lemma QueriesAfterUpdate(s: Win32Window.KeyState)
    ensures Pressed(Win32Window.Advance(s)) <==> s.action == Win32Window.PRESS && s.current == Win32Window.RELEASE
    ensures Released(Win32Window.Advance(s)) <==> s.action == Win32Window.RELEASE && s.current == Win32Window.PRESS
    ensures !Pressed(Win32Window.Advance(Win32Window.Advance(s)))
    ensures !Released(Win32Window.Advance(Win32Window.Advance(s)))
  {
  }

  /**
   * A mouse query reads the stored byte of a valid button of an existing
   * context: pressed iff it is PRESS, released iff it is RELEASE, and an
   * invalid button or a missing context reads as neither.
   */
  lemma MouseQueries(context: Win32Window.Window?, button: U32)
    requires context != null ==> context.Valid()
    ensures MouseButtonPressed(context, button) <==>
      (context != null && Win32Util.MouseButtonValid(button) && context.mouseButtons[button] == Win32Window.PRESS)
    ensures MouseButtonReleased(context, button) <==>
      (context != null && Win32Util.MouseButtonValid(button) && context.mouseButtons[button] == Win32Window.RELEASE)
    ensures !(MouseButtonPressed(context, button) && MouseButtonReleased(context, button))
  {
  }
}
