/**
 * Helpers of the Win32 generation (src/Minimal/MinimalUtil.c): the mouse
 * button validator, the coloured prefix of each log level and the frame
 * timer. The keycode validator lives with the key table (KeyTable).
 */
module Win32Util {
  import opened Common

  const MOUSE_BUTTON_1: int := 0
  const MOUSE_BUTTON_LAST: int := 4

  /** MinimalMouseButtonValid, on an unsigned button code. */
  predicate MouseButtonValid(button: U32)
  {
    MOUSE_BUTTON_1 <= button <= MOUSE_BUTTON_LAST
  }

  // ---------------------------------------------------------------------------
  // Log levels

  const LOG_TRACE: int := 0
  const LOG_INFO: int := 1
  const LOG_WARN: int := 2
  const LOG_ERROR: int := 3
  const LOG_CRITICAL: int := 4

  const ESC: char := 27 as char

  /** An ANSI colour escape sequence. */
  function Colour(code: string): string
  {
    [ESC] + "[" + code + "m"
  }

  const WHITE: string := Colour("37")
  const GREEN: string := Colour("32")
  const YELLOW: string := Colour("33")
  const RED: string := Colour("31")
  const BG_RED: string := Colour("41")
  const RESET: string := Colour("0")

  /** MinimalLoggerGetLevelStr: the coloured tag printed before a message of that level. */
  function LoggerGetLevelStr(level: int): (r: string)
    ensures r == [] <==> !(LOG_TRACE <= level <= LOG_CRITICAL)
  {
    if level == LOG_TRACE then WHITE + "[TRACE]" + RESET + " "
    else if level == LOG_INFO then GREEN + "[INFO]" + RESET + " "
    else if level == LOG_WARN then YELLOW + "[WARN]" + RESET + " "
    else if level == LOG_ERROR then RED + "[ERROR]" + RESET + " "
    else if level == LOG_CRITICAL then WHITE + BG_RED + "[CRITICAL]" + RESET + " "
    else ""
  }

  /** The five levels get five different prefixes, each ending in a reset and a space. */
  lemma LevelStrDistinct(a: int, b: int)
    requires LOG_TRACE <= a <= LOG_CRITICAL && LOG_TRACE <= b <= LOG_CRITICAL && a != b
    ensures LoggerGetLevelStr(a) != LoggerGetLevelStr(b)
    ensures var s := LoggerGetLevelStr(a); |s| >= |RESET| + 1 && s[|s| - |RESET| - 1..] == RESET + " "
  {
    LevelStrLayout(a);
    LevelStrLayout(b);
  }

  /**
   * The characters that tell the prefixes apart: the second digit of the
   * first colour code, and the character after the tag's opening bracket
   * (or the bracket itself, after the second colour code of CRITICAL).
   */
  function LevelKey(level: int): (char, char)
  {
    if level == LOG_TRACE then ('7', 'T')
    else if level == LOG_INFO then ('2', 'I')
    else if level == LOG_WARN then ('3', 'W')
    else if level == LOG_ERROR then ('1', 'E')
    else ('7', '[')
  }

  lemma LevelStrLayout(level: int)
    requires LOG_TRACE <= level <= LOG_CRITICAL
    ensures var s := LoggerGetLevelStr(level);
      |s| >= 7 && (s[3], s[6]) == LevelKey(level) && s[|s| - |RESET| - 1..] == RESET + " "
  {
    var s := LoggerGetLevelStr(level);
    var (colour, tag) :=
      if level == LOG_TRACE then (WHITE, "[TRACE]")
      else if level == LOG_INFO then (GREEN, "[INFO]")
      else if level == LOG_WARN then (YELLOW, "[WARN]")
      else if level == LOG_ERROR then (RED, "[ERROR]")
      else (WHITE + BG_RED, "[CRITICAL]");
    assert s == colour + tag + (RESET + " ");
  }

  // ---------------------------------------------------------------------------
  // Frame timer

  /** MinimalTimer. The clock is passed in as `seconds`, as the source does. */
  class Timer {
    var frames: U32
    var fps: U32
    var seconds: real
    var deltatime: real
    var lastframe: real

    constructor (frames: U32, fps: U32, seconds: real, deltatime: real, lastframe: real)
      ensures this.frames == frames && this.fps == fps && this.seconds == seconds
      ensures this.deltatime == deltatime && this.lastframe == lastframe
    {
      this.frames, this.fps := frames, fps;
      this.seconds, this.deltatime, this.lastframe := seconds, deltatime, lastframe;
    }

    /** MinimalTimerReset: all five fields zero. */
    method Reset()
      modifies this
      ensures frames == 0 && fps == 0
      ensures seconds == 0.0 && deltatime == 0.0 && lastframe == 0.0
    {
      seconds := 0.0;
      frames := 0;
      fps := 0;
      deltatime := 0.0;
      lastframe := 0.0;
    }

    /** MinimalTimerStart: the time since the previous frame start, then the new start. */
    method Start(now: real)
      modifies this`deltatime, this`lastframe
      ensures deltatime == now - old(lastframe)
      ensures lastframe == now
    {
      deltatime := now - lastframe;
      lastframe := now;
    }

    /**
     * MinimalTimerEnd: counts the frame (a uint32_t, so it wraps); once more
     * than a second has passed since the last report, publishes the count as
     * fps, restarts it and advances the report time by one second.
     */
    method End(now: real)
      modifies this`frames, this`fps, this`seconds
      ensures now - old(seconds) > 1.0 ==>
        fps == ToU32(old(frames) + 1) && frames == 0 && seconds == old(seconds) + 1.0
      ensures now - old(seconds) <= 1.0 ==>
        fps == old(fps) && frames == ToU32(old(frames) + 1) && seconds == old(seconds)
    {
      frames := ToU32(frames + 1);
      if now - seconds > 1.0 {
        seconds := seconds + 1.0;
        fps := frames;
        frames := 0;
      }
    }
  }
}
