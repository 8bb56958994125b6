/**
 * Events of the single-header library (src/event.c): a type tag and either
 * three parameter words or a pointer for application-defined ("external")
 * events, typed accessors that answer only for their own event type, and a
 * single registered handler that receives every dispatched event.
 */
module HeaderEvent {
  import opened Common
  import opened Words

  const EVENT_WINDOW_SIZE: U32 := 1
  const EVENT_WINDOW_MINIMIZE: U32 := 2
  const EVENT_WINDOW_MAXIMIZE: U32 := 3
  const EVENT_KEY: U32 := 10
  const EVENT_CHAR: U32 := 11
  const EVENT_MOUSE_BUTTON: U32 := 12
  const EVENT_MOUSE_MOVED: U32 := 13
  const EVENT_MOUSE_SCROLLED: U32 := 14
  const EVENT_LAST: U32 := 14

  const PRESS: int := 1
  const RELEASE: int := 0
  const KEY_UNKNOWN: I16 := -1

  /** An opaque pointer value; 0 is NULL. */
  type Pointer = nat

  /** The union inside MinimalEvent: three parameter words or one pointer. */
  datatype Payload = Params(uParam: U32, lParam: I32, rParam: I32) | External(data: Pointer)

  datatype Event = Event(kind: U32, payload: Payload)

  /** The parameter words; a pointer payload reads as zero words in this model. */
  function UParam(e: Event): U32 { if e.payload.Params? then e.payload.uParam else 0 }
  function LParam(e: Event): I32 { if e.payload.Params? then e.payload.lParam else 0 }
  function RParam(e: Event): I32 { if e.payload.Params? then e.payload.rParam else 0 }

  predicate IsType(e: Event, kind: U32)
  {
    e.kind == kind
  }

  predicate IsExternal(e: Event)
  {
    e.kind > EVENT_LAST
  }

  /** minimalExternalEvent: the union's contents for an external event, else nothing (NULL). */
  function ExternalEvent(e: Event): Option<Payload>
  {
    if IsExternal(e) then Some(e.payload) else None
  }

  /**
   * minimalEventWindowSize: the size (the signed words read as uint32) for a
   * size event, else None; None stands for returning 0 and writing nothing.
   */
  function WindowSize(e: Event): Option<(U32, U32)>
  {
    if IsType(e, EVENT_WINDOW_SIZE) then Some((ToU32(LParam(e)), ToU32(RParam(e)))) else None
  }

  /** minimalEventMouseButton: the position, for a button event about this button. */
  function MouseButton(e: Event, button: I8): Option<(real, real)>
  {
    if !IsType(e, EVENT_MOUSE_BUTTON) then None
    else if button != ToI8(HiWord(UParam(e))) then None
    else Some((LParam(e) as real, RParam(e) as real))
  }

  /**
   * minimalEventMouseButtonPressed: the answer, and the position it wrote
   * (it writes the position whenever the button matches, whatever the action).
   */
  function MouseButtonPressed(e: Event, button: I8): (bool, Option<(real, real)>)
  {
    (MouseButton(e, button).Some? && LoWord(UParam(e)) == PRESS, MouseButton(e, button))
  }

  function MouseButtonReleased(e: Event, button: I8): (bool, Option<(real, real)>)
  {
    (MouseButton(e, button).Some? && LoWord(UParam(e)) == RELEASE, MouseButton(e, button))
  }

  /** minimalEventMouseButtonAction: the low word, whatever the event type. */
  function MouseButtonAction(e: Event): U16
  {
    LoWord(UParam(e))
  }

  function MouseMoved(e: Event): Option<(real, real)>
  {
    if IsType(e, EVENT_MOUSE_MOVED) then Some((LParam(e) as real, RParam(e) as real)) else None
  }

  function MouseScrolled(e: Event): Option<(real, real)>
  {
    if IsType(e, EVENT_MOUSE_SCROLLED) then Some((LParam(e) as real, RParam(e) as real)) else None
  }

  /** minimalEventKey: the keycode (uParam converted to int16) of a key event, else KEY_UNKNOWN. */
  function Key(e: Event): I16
  {
    if IsType(e, EVENT_KEY) then ToI16(UParam(e)) else KEY_UNKNOWN
  }

  function KeyPressed(e: Event): I16
  {
    if IsType(e, EVENT_KEY) && LParam(e) == PRESS then ToI16(UParam(e)) else KEY_UNKNOWN
  }

  function KeyReleased(e: Event): I16
  {
    if IsType(e, EVENT_KEY) && LParam(e) == RELEASE then ToI16(UParam(e)) else KEY_UNKNOWN
  }

  /** minimalEventChar: the low byte of uParam as a (signed) char, else '\0'. */
  function Char(e: Event): I8
  {
    if IsType(e, EVENT_CHAR) then ToI8(UParam(e)) else 0
  }

  /** A registered callback, identified abstractly. */
  type Callback = nat

  /** One invocation of the registered callback. */
  datatype Delivery = Delivery(callback: Callback, context: Pointer, event: Event)

  /**
   * The static event_handler record. The callback invocations are recorded
   * in `delivered`, in order.
   */
  class EventHandler {
    var context: Pointer
    var callback: Option<Callback>
    var delivered: seq<Delivery>

    constructor ()
      ensures callback == None && context == 0 && delivered == []
    {
      context, callback, delivered := 0, None, [];
    }

    /** minimalSetEventHandler */
    method SetEventHandler(context: Pointer, callback: Option<Callback>)
      modifies this
      ensures this.context == context && this.callback == callback
      ensures delivered == old(delivered)
    {
      this.context := context;
      this.callback := callback;
    }

    /** minimalDispatchEvent: one call of the handler, if one is set. */
    method DispatchEvent(kind: U32, uParam: U32, lParam: I32, rParam: I32)
      modifies this`delivered
      ensures delivered == old(delivered) +
        if callback.Some? then [Delivery(callback.value, context, Event(kind, Params(uParam, lParam, rParam)))] else []
    {
      var e := Event(kind, Params(uParam, lParam, rParam));
      if callback.Some? {
        delivered := delivered + [Delivery(callback.value, context, e)];
      }
    }

    /** minimalDispatchExternalEvent: the same, with a pointer payload. */
    method DispatchExternalEvent(kind: U32, data: Pointer)
      modifies this`delivered
      ensures delivered == old(delivered) +
        if callback.Some? then [Delivery(callback.value, context, Event(kind, External(data)))] else []
    {
      var e := Event(kind, External(data));
      if callback.Some? {
        delivered := delivered + [Delivery(callback.value, context, e)];
      }
    }
  }

  // ---------------------------------------------------------------------------
  // Properties: each accessor answers exactly for its own event type and
  // recovers what the dispatcher put in.

  /** An event is external exactly when its type lies beyond the library's own types. */
  lemma ExternalOnlyBeyondLast(e: Event)
    ensures ExternalEvent(e).Some? <==> e.kind > EVENT_LAST
    ensures ExternalEvent(e).Some? ==> ExternalEvent(e).value == e.payload
    ensures IsExternal(e) ==>
      WindowSize(e) == None && MouseMoved(e) == None && MouseScrolled(e) == None &&
      Key(e) == KEY_UNKNOWN && Char(e) == 0
  {
  }

  /** The size, motion and scroll accessors answer only for their own type, and then give the words back. */
  lemma PositionAccessors(kind: U32, uParam: U32, lParam: I32, rParam: I32)
    ensures var e := Event(kind, Params(uParam, lParam, rParam));
      (WindowSize(e).Some? <==> kind == EVENT_WINDOW_SIZE) &&
      (WindowSize(e).Some? ==> WindowSize(e).value == (ToU32(lParam), ToU32(rParam))) &&
      (MouseMoved(e).Some? <==> kind == EVENT_MOUSE_MOVED) &&
      (MouseMoved(e).Some? ==> MouseMoved(e).value == (lParam as real, rParam as real)) &&
      (MouseScrolled(e).Some? <==> kind == EVENT_MOUSE_SCROLLED) &&
      (MouseScrolled(e).Some? ==> MouseScrolled(e).value == (lParam as real, rParam as real))
  {
  }

  /** A non-negative size survives the trip through the signed parameter words. */
  lemma WindowSizeRoundTrip(width: I32, height: I32)
    requires 0 <= width && 0 <= height
    ensures WindowSize(Event(EVENT_WINDOW_SIZE, Params(0, width, height))) == Some((width, height))
  {
  }

  /**
   * A button event packed as (button << 16) + action is recognised for that
   * button and no other, and reports pressed or released from the action.
   */
  lemma MouseButtonRoundTrip(button: I8, other: I8, action: U16, x: I32, y: I32)
    requires 0 <= button && other != button
    ensures var e := Event(EVENT_MOUSE_BUTTON, Params(MakeMouseU(button, action), x, y));
      MouseButton(e, button) == Some((x as real, y as real)) &&
      MouseButton(e, other) == None &&
      MouseButtonAction(e) == action &&
      (MouseButtonPressed(e, button).0 <==> action == PRESS) &&
      (MouseButtonReleased(e, button).0 <==> action == RELEASE)
  {
    PackUnpack(button, action);
  }

  /** No event reports a button both pressed and released. */
  lemma PressedReleasedExclusive(e: Event, button: I8)
    ensures !(MouseButtonPressed(e, button).0 && MouseButtonReleased(e, button).0)
    ensures MouseButtonPressed(e, button).0 ==> MouseButtonAction(e) == PRESS
    ensures MouseButtonReleased(e, button).0 ==> MouseButtonAction(e) == RELEASE
    ensures !(KeyPressed(e) != KEY_UNKNOWN && KeyReleased(e) != KEY_UNKNOWN)
  {
  }

  /** A key event gives its keycode back; pressed/released also look at the action word. */
  lemma KeyRoundTrip(keycode: I16, action: I32, mods: I32)
    requires 0 <= keycode
    ensures var e := Event(EVENT_KEY, Params(keycode, action, mods));
      Key(e) == keycode &&
      KeyPressed(e) == (if action == PRESS then keycode else KEY_UNKNOWN) &&
      KeyReleased(e) == (if action == RELEASE then keycode else KEY_UNKNOWN) &&
      Char(e) == 0
  {
  }

  /** A character event gives back the low byte of its word; any other type gives '\0'. */
  lemma CharRoundTrip(c: Byte, kind: U32)
    ensures Char(Event(EVENT_CHAR, Params(c, 0, 0))) == ToI8(c)
    ensures kind != EVENT_CHAR ==> Char(Event(kind, Params(c, 0, 0))) == 0
  {
  }
}
