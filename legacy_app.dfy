/**
 * The application layer of the oldest generation (Minimal/src/Minimal/Minimal.c):
 * the version getters, the debug/vsync settings, the start-up sequence of
 * MinimalLoad, and the key and mouse queries.
 *
 * The window getters the queries call are only declared in this
 * generation, and their bodies are not part of this model. The mouse
 * getter returns an int8_t state (-1 for no window or an invalid button),
 * which the mouse queries take as a parameter. The key getter returns a
 * pointer to the key's state, NULL when there is none: MinimalKeyPressed
 * stores that pointer in an int8_t (its low byte, read as two's
 * complement) and MinimalKeyReleased compares the pointer itself with
 * MINIMAL_RELEASE, which is 0. KeyPressedAsWritten and KeyReleasedAsWritten
 * take the address (0 for NULL); KeyPressed and KeyReleased are the
 * intended queries on the state the pointer points to.
 */
module LegacyApp {
  import opened Common
  import GLVersion
  import Win32Util
  import LegacyWindow

  const VERSION_MAJOR: nat := 1
  const VERSION_MINOR: nat := 0
  const VERSION_REVISION: nat := 0

  /** MinimalGetVersion: the three version numbers (each written only when its pointer is non-NULL). */
  function GetVersion(): (nat, nat, nat)
  {
    (VERSION_MAJOR, VERSION_MINOR, VERSION_REVISION)
  }

  /** MinimalGetVersionString: the three numbers stringised and joined with dots. */
  function GetVersionString(): (s: GLVersion.CString)
    ensures s == "1.0.0"
    ensures '.' in s
  {
    GLVersion.Decimal(VERSION_MAJOR) + "." + GLVersion.Decimal(VERSION_MINOR) + "." + GLVersion.Decimal(VERSION_REVISION)
  }

  /** MinimalApp: the settings and the frame timer. */
  class App {
    var debug: Byte
    var vsync: Byte
    var timer: Win32Util.Timer
    /** The GL version requested of the window by MinimalLoad. */
    var glMajor: int
    var glMinor: int

    constructor (timer: Win32Util.Timer)
      ensures this.timer == timer && debug == 0 && vsync == 0
    {
      this.timer := timer;
      debug, vsync := 0, 0;
      glMajor, glMinor := 0, 0;
    }

    /**
     * MinimalLoad without the OS side: the two settings are cleared first;
     * a failing MinimalInit stops there; otherwise the GL version string is
     * parsed into the window request; a failing window creation stops
     * there; otherwise the timer is reset and the result is that of
     * on_load, or success when no on_load is set. `onLoad` is None for no
     * callback and otherwise what the callback returns.
     */
    method Load(gl: GLVersion.CString, initOk: bool, windowOk: bool, onLoad: Option<bool>) returns (ok: bool)
      requires initOk ==> '.' in gl
      modifies this`debug, this`vsync, this`glMajor, this`glMinor, timer
      ensures debug == 0 && vsync == 0
      ensures ok <==> initOk && windowOk && (onLoad.None? || onLoad.value)
      ensures initOk ==> (glMajor, glMinor) == GLVersion.GetGLVersion(gl)
      ensures !initOk ==> glMajor == old(glMajor) && glMinor == old(glMinor)
      ensures initOk && windowOk ==> (timer.frames == 0 && timer.fps == 0 && timer.seconds == 0.0 &&
        timer.deltatime == 0.0 && timer.lastframe == 0.0)
      ensures !(initOk && windowOk) ==> unchanged(timer)
    {
      debug := 0;
      vsync := 0;
      if !initOk {
        return false;
      }
      var version := GLVersion.GetGLVersion(gl);
      glMajor, glMinor := version.0, version.1;
      if !windowOk {
        return false;
      }
      timer.Reset();
      return onLoad.None? || onLoad.value;
    }

    /** MinimalEnableDebug: the int argument is stored in a one-byte flag. */
    method EnableDebug(b: I32)
      modifies this`debug
      ensures debug == ToU8(b)
    {
      debug := ToU8(b);
    }

    /** MinimalEnableVsync: only the flag is stored (the swap interval call is commented out). */
    method EnableVsync(b: I32)
      modifies this`vsync
      ensures vsync == ToU8(b)
    {
      vsync := ToU8(b);
    }

    /** MinimalToggleDebug */
    method ToggleDebug()
      modifies this`debug
      ensures debug == (if old(debug) == 0 then 1 else 0)
    {
      EnableDebug(if debug == 0 then 1 else 0);
    }

    /** MinimalToggleVsync */
    method ToggleVsync()
      modifies this`vsync
      ensures vsync == (if old(vsync) == 0 then 1 else 0)
    {
      EnableVsync(if vsync == 0 then 1 else 0);
    }

    /** MinimalGetFps */
    function GetFps(): U32
      reads this, timer
    {
      timer.fps
    }
  }

  // ---------------------------------------------------------------------------
  // Queries on the state the window getter returns

  /** MinimalKeyPressed as written: the low byte of the state's address, as an int8_t, is PRESS or REPEAT. */
  predicate KeyPressedAsWritten(address: nat)
  {
    var state := ToI8(address);
    state >= 0 && (state == LegacyWindow.PRESS as int || state == LegacyWindow.REPEAT as int)
  }

  /** MinimalKeyReleased as written: the low byte is not negative and the pointer equals MINIMAL_RELEASE (0). */
  predicate KeyReleasedAsWritten(address: nat)
  {
    ToI8(address) >= 0 && address == LegacyWindow.RELEASE as int
  }

  /** MinimalKeyPressed as intended: an existing key that is pressed or repeating. */
  predicate KeyPressed(state: I8)
  {
    state >= 0 && (state == LegacyWindow.PRESS as int || state == LegacyWindow.REPEAT as int)
  }

  /** MinimalKeyReleased as intended: an existing key that is released. */
  predicate KeyReleased(state: I8)
  {
    state >= 0 && state == LegacyWindow.RELEASE as int
  }

  /** MinimalMouseButtonPressed as written: `state >= 0 && MINIMAL_PRESS`, a test of the constant. */
  predicate MouseButtonPressedAsWritten(state: I8)
  {
    state >= 0 && LegacyWindow.PRESS != 0
  }

  /** MinimalMouseButtonReleased as written: `state >= 0 && MINIMAL_RELEASE`, and MINIMAL_RELEASE is 0. */
  predicate MouseButtonReleasedAsWritten(state: I8)
  {
    state >= 0 && LegacyWindow.RELEASE != 0
  }

  /** MinimalMouseButtonPressed as intended: an existing button whose state is PRESS. */
  predicate MouseButtonPressed(state: I8)
  {
    state >= 0 && state == LegacyWindow.PRESS as int
  }

  /** MinimalMouseButtonReleased as intended: an existing button whose state is RELEASE. */
  predicate MouseButtonReleased(state: I8)
  {
    state >= 0 && state == LegacyWindow.RELEASE as int
  }

  // ---------------------------------------------------------------------------
  // Properties

  /** The version string parses, with the GL version parser, back into the first two version numbers. */
  lemma VersionStringParses()
    ensures GLVersion.GetGLVersion(GetVersionString()) == (GetVersion().0, GetVersion().1)
    ensures GetVersion() == (1, 0, 0)
  {
    GLVersion.ThirdComponentIgnored(VERSION_MAJOR, VERSION_MINOR, VERSION_REVISION);
  }

  /**
   * The key queries as written read the address, not the key's state:
   * released holds only for a NULL pointer, that is for a key that does not
   * exist, and pressed depends only on the address's low byte. A key whose
   * state sits at an address ending in 0x00 reads as neither, whatever its
   * state, while one at an address ending in 0x01 reads as pressed.
   */
  lemma KeyQueriesReadAddress(address: nat)
    ensures KeyReleasedAsWritten(address) <==> address == 0
    ensures KeyPressedAsWritten(address) <==> address % TWO8 == 1 || address % TWO8 == 2
    ensures !(KeyPressedAsWritten(address) && KeyReleasedAsWritten(address))
    ensures address % TWO8 == 0 ==> !KeyPressedAsWritten(address)
  {
  }

  /**
   * The intended key queries: the missing-key sentinel reads as neither,
   * and a state byte of the window (0, 1 or 2) reads as exactly one of the
   * two.
   */
  lemma KeyQueries(state: I8)
    ensures state < 0 ==> !KeyPressed(state) && !KeyReleased(state)
    ensures 0 <= state <= LegacyWindow.REPEAT as int ==> (KeyPressed(state) <==> !KeyReleased(state))
  {
  }

  /**
   * The mouse queries as written ignore the button's state: a released
   * button (state 0) reads as pressed, and nothing ever reads as released.
   */
  lemma MouseQueriesIgnoreState(state: I8)
    ensures MouseButtonPressedAsWritten(state) <==> state >= 0
    ensures !MouseButtonReleasedAsWritten(state)
    ensures MouseButtonPressedAsWritten(LegacyWindow.RELEASE as int) && !MouseButtonPressed(LegacyWindow.RELEASE as int)
  {
  }

  /**
   * The intended mouse queries read the state: pressed iff PRESS, released
   * iff RELEASE, never both, and the missing-button sentinel reads as
   * neither. They agree with the written ones only on a pressed button.
   */
  lemma MouseQueriesReadState(state: I8)
    ensures MouseButtonPressed(state) <==> state == LegacyWindow.PRESS as int
    ensures MouseButtonReleased(state) <==> state == LegacyWindow.RELEASE as int
    ensures !(MouseButtonPressed(state) && MouseButtonReleased(state))
    ensures state == -1 ==> !MouseButtonPressed(state) && !MouseButtonReleased(state)
    ensures MouseButtonPressed(state) == MouseButtonPressedAsWritten(state) <==> state < 0 || state == LegacyWindow.PRESS as int
  {
  }
}
