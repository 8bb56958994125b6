/**
 * Event accessors of the Win32 generation (src/Minimal/MinimalEvent.c). Each
 * accessor answers with a value for its own event type and with a sentinel
 * (-1, false or '\0') for any other; the mouse accessors also write the
 * cursor position, which the model returns beside the answer.
 */
module Win32Event {
  import opened Common
  import opened Words

  const EVENT_WINDOW_CLOSE: U32 := 1
  const EVENT_WINDOW_SIZE: U32 := 2
  const EVENT_WINDOW_FOCUS: U32 := 3
  const EVENT_WINDOW_MOVED: U32 := 4
  const EVENT_KEY: U32 := 5
  const EVENT_CHAR: U32 := 6
  const EVENT_MOUSE_BUTTON: U32 := 7
  const EVENT_MOUSE_MOVED: U32 := 8
  const EVENT_MOUSE_SCROLLED: U32 := 9

  const PRESS: int := 1
  const RELEASE: int := 0
  const KEY_UNKNOWN: I32 := -1
  const MOUSE_BUTTON_UNKNOWN: I32 := -1

  /** The value an accessor returns, and the position it wrote (None: nothing written). */
  datatype Answer = Answer(value: I32, written: Option<(real, real)>)

  function Position(e: EventRecord): (real, real)
  {
    (e.lParam as real, e.rParam as real)
  }

  /** MinimalCheckEventType */
  predicate CheckEventType(e: EventRecord, kind: U32)
  {
    e.kind == kind
  }

  /** MinimalEventMouseButton: the high word of a button event, and its position. */
  function MouseButton(e: EventRecord): Answer
  {
    if e.kind == EVENT_MOUSE_BUTTON then Answer(HiWord(e.uParam), Some(Position(e)))
    else Answer(MOUSE_BUTTON_UNKNOWN, None)
  }

  /** MinimalEventMouseButtonPressed: the button if the low word says PRESS, else -1. */
  function MouseButtonPressed(e: EventRecord): Answer
  {
    var b := MouseButton(e);
    Answer(if LoWord(e.uParam) == PRESS then b.value else MOUSE_BUTTON_UNKNOWN, b.written)
  }

  function MouseButtonReleased(e: EventRecord): Answer
  {
    var b := MouseButton(e);
    Answer(if LoWord(e.uParam) == RELEASE then b.value else MOUSE_BUTTON_UNKNOWN, b.written)
  }

  /** MinimalEventMouseMoved: the position of a motion event. */
  function MouseMoved(e: EventRecord): Option<(real, real)>
  {
    if e.kind == EVENT_MOUSE_MOVED then Some(Position(e)) else None
  }

  /** MinimalEventKey: uParam converted to int32 for a key event, else -1. */
  function Key(e: EventRecord): I32
  {
    if e.kind == EVENT_KEY then ToI32(e.uParam) else KEY_UNKNOWN
  }

  function KeyPressed(e: EventRecord): I32
  {
    if e.kind == EVENT_KEY && e.lParam == PRESS then ToI32(e.uParam) else KEY_UNKNOWN
  }

  function KeyReleased(e: EventRecord): I32
  {
    if e.kind == EVENT_KEY && e.lParam == RELEASE then ToI32(e.uParam) else KEY_UNKNOWN
  }

  /** MinimalEventChar: the low byte of uParam as a (signed) char, else '\0'. */
  function Char(e: EventRecord): I8
  {
    if e.kind == EVENT_CHAR then ToI8(e.uParam) else 0
  }

  // ---------------------------------------------------------------------------
  // Properties

  /** Any other event type gets the sentinels and nothing written. */
  lemma OtherTypesGetSentinels(e: EventRecord)
    ensures e.kind != EVENT_MOUSE_BUTTON ==>
      MouseButton(e) == Answer(-1, None) && MouseButtonPressed(e) == Answer(-1, None) &&
      MouseButtonReleased(e) == Answer(-1, None)
    ensures e.kind != EVENT_MOUSE_MOVED ==> MouseMoved(e) == None
    ensures e.kind != EVENT_KEY ==> Key(e) == -1 && KeyPressed(e) == -1 && KeyReleased(e) == -1
    ensures e.kind != EVENT_CHAR ==> Char(e) == 0
  {
  }

  /**
   * An event packed with MINIMAL_MAKE_MOUSE_U(button, action) is read back as
   * that button, pressed or released according to the action; the position is
   * written whatever the action.
   */
  lemma MouseButtonRoundTrip(button: U16, action: U16, x: I32, y: I32)
    ensures var e := EventRecord(EVENT_MOUSE_BUTTON, MakeMouseU(button, action), x, y);
      MouseButton(e) == Answer(button, Some((x as real, y as real))) &&
      MouseButtonPressed(e) == Answer(if action == PRESS then button else -1, Some((x as real, y as real))) &&
      MouseButtonReleased(e) == Answer(if action == RELEASE then button else -1, Some((x as real, y as real)))
  {
    PackUnpack(button, action);
  }

  /** At most one of Pressed and Released reports a button for any event. */
  lemma PressedReleasedExclusive(e: EventRecord)
    ensures MouseButtonPressed(e).value == -1 || MouseButtonReleased(e).value == -1
    ensures KeyPressed(e) == -1 || KeyReleased(e) == -1
  {
  }

  /** A key event gives the keycode back; pressed/released follow the action word. */
  lemma KeyRoundTrip(keycode: U32, action: I32, mods: I32)
    requires keycode < 0x8000_0000
    ensures var e := EventRecord(EVENT_KEY, keycode, action, mods);
      Key(e) == keycode &&
      KeyPressed(e) == (if action == PRESS then keycode else -1) &&
      KeyReleased(e) == (if action == RELEASE then keycode else -1)
  {
  }

  /**
   * The scan-code table's "no key" entry 0xFFFFFFFF, dispatched unchanged by
   * the window layer, reads back as KEY_UNKNOWN.
   */
  lemma UnmappedKeyReadsUnknown(action: I32, mods: I32)
    ensures Key(EventRecord(EVENT_KEY, 0xFFFF_FFFF, action, mods)) == KEY_UNKNOWN
  {
  }
}
