/**
 * Events of the application generation (src/minimal/event.c): the dispatcher
 * builds a record and hands it to the application's on_event callback, and
 * the accessors answer for their own event type with GLFW's sentinels.
 */
module AppEvent {
  import opened Common
  import opened Words

  const EVENT_WINDOW_SIZE: U32 := 1
  const EVENT_KEY: U32 := 10
  const EVENT_CHAR: U32 := 11
  const EVENT_MOUSE_BUTTON: U32 := 12
  const EVENT_MOUSE_MOVED: U32 := 13
  const EVENT_MOUSE_SCROLLED: U32 := 14

  const GLFW_PRESS: int := 1
  const GLFW_RELEASE: int := 0
  const GLFW_KEY_UNKNOWN: I32 := -1

  /** A registered callback, identified abstractly. */
  type Callback = nat

  /** What on_event receives for one dispatched record: the record once if the callback is set, else nothing. */
  function Forwarded(onEvent: Option<Callback>, e: EventRecord): seq<(Callback, EventRecord)>
  {
    if onEvent.Some? then [(onEvent.value, e)] else []
  }

  /**
   * The part of MinimalApp the event layer uses: the optional on_event
   * callback. Every invocation is recorded in `received`, in order.
   */
  class App {
    var onEvent: Option<Callback>
    var received: seq<(Callback, EventRecord)>

    constructor (onEvent: Option<Callback>)
      ensures this.onEvent == onEvent && received == []
    {
      this.onEvent := onEvent;
      received := [];
    }

    /** minimalDispatchEvent: forwards the record iff on_event is set. */
    method DispatchEvent(kind: U32, uParam: U32, lParam: I32, rParam: I32)
      modifies this`received
      ensures received == old(received) + Forwarded(onEvent, EventRecord(kind, uParam, lParam, rParam))
    {
      var e := EventRecord(kind, uParam, lParam, rParam);
      if onEvent.Some? {
        received := received + [(onEvent.value, e)];
      }
    }
  }

  /** The value an accessor returns, and the pair it wrote (None: nothing written). */
  datatype Answer = Answer(value: I32, written: Option<(real, real)>)

  function Position(e: EventRecord): (real, real)
  {
    (e.lParam as real, e.rParam as real)
  }

  predicate CheckEventType(e: EventRecord, kind: U32)
  {
    e.kind == kind
  }

  /** minimalEventWindowSize: the size of a size event, as floats. */
  function WindowSize(e: EventRecord): Option<(real, real)>
  {
    if e.kind != EVENT_WINDOW_SIZE then None else Some(Position(e))
  }

  function MouseButton(e: EventRecord): Answer
  {
    if e.kind != EVENT_MOUSE_BUTTON then Answer(GLFW_KEY_UNKNOWN, None)
    else Answer(HiWord(e.uParam), Some(Position(e)))
  }

  function MouseButtonPressed(e: EventRecord): Answer
  {
    var b := MouseButton(e);
    Answer(if LoWord(e.uParam) == GLFW_PRESS then b.value else GLFW_KEY_UNKNOWN, b.written)
  }

  function MouseButtonReleased(e: EventRecord): Answer
  {
    var b := MouseButton(e);
    Answer(if LoWord(e.uParam) == GLFW_RELEASE then b.value else GLFW_KEY_UNKNOWN, b.written)
  }

  function MouseMoved(e: EventRecord): Option<(real, real)>
  {
    if e.kind != EVENT_MOUSE_MOVED then None else Some(Position(e))
  }

  function Key(e: EventRecord): I32
  {
    if e.kind == EVENT_KEY then ToI32(e.uParam) else GLFW_KEY_UNKNOWN
  }

  function KeyPressed(e: EventRecord): I32
  {
    if e.kind == EVENT_KEY && e.lParam == GLFW_PRESS then ToI32(e.uParam) else GLFW_KEY_UNKNOWN
  }

  function KeyReleased(e: EventRecord): I32
  {
    if e.kind == EVENT_KEY && e.lParam == GLFW_RELEASE then ToI32(e.uParam) else GLFW_KEY_UNKNOWN
  }

  function Char(e: EventRecord): I8
  {
    if e.kind == EVENT_CHAR then ToI8(e.uParam) else 0
  }

  // ---------------------------------------------------------------------------
  // Properties

  /** Size and motion events give their words back; every other type writes nothing. */
  lemma PositionAccessors(e: EventRecord)
    ensures WindowSize(e).Some? <==> e.kind == EVENT_WINDOW_SIZE
    ensures MouseMoved(e).Some? <==> e.kind == EVENT_MOUSE_MOVED
    ensures WindowSize(e).Some? ==> WindowSize(e).value == (e.lParam as real, e.rParam as real)
    ensures MouseMoved(e).Some? ==> MouseMoved(e).value == (e.lParam as real, e.rParam as real)
  {
  }

  /** Other event types get GLFW_KEY_UNKNOWN or '\0'. */
  lemma OtherTypesGetSentinels(e: EventRecord)
    ensures e.kind != EVENT_MOUSE_BUTTON ==>
      MouseButton(e) == Answer(-1, None) && MouseButtonPressed(e).value == -1 && MouseButtonReleased(e).value == -1
    ensures e.kind != EVENT_KEY ==> Key(e) == -1 && KeyPressed(e) == -1 && KeyReleased(e) == -1
    ensures e.kind != EVENT_CHAR ==> Char(e) == 0
  {
  }

  /** A button event packed as (button << 16) + action is read back as that button and action. */
  lemma MouseButtonRoundTrip(button: U16, action: U16, x: I32, y: I32)
    ensures var e := EventRecord(EVENT_MOUSE_BUTTON, MakeMouseU(button, action), x, y);
      MouseButton(e) == Answer(button, Some((x as real, y as real))) &&
      MouseButtonPressed(e).value == (if action == GLFW_PRESS then button else -1) &&
      MouseButtonReleased(e).value == (if action == GLFW_RELEASE then button else -1)
  {
    PackUnpack(button, action);
  }

  /** A key event gives its keycode back; pressed/released follow the action word. */
  lemma KeyRoundTrip(keycode: U32, action: I32, mods: I32)
    requires keycode < 0x8000_0000
    ensures var e := EventRecord(EVENT_KEY, keycode, action, mods);
      Key(e) == keycode &&
      KeyPressed(e) == (if action == GLFW_PRESS then keycode else -1) &&
      KeyReleased(e) == (if action == GLFW_RELEASE then keycode else -1)
  {
  }
}
