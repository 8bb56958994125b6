/**
 * The polled input state of the application generation (src/minimal/input.c):
 * a (state, prev) byte pair per GLFW key and mouse button, refreshed once per
 * frame by polling GLFW, and the Hit/Down/Up edge queries over it. The
 * Pressed/Released queries ask GLFW directly; what GLFW answers is passed in
 * as `polled`. The GLFW constants are those of GLFW 3: keys SPACE (32) to
 * LAST (348), the unknown key -1, buttons 0 to 7, RELEASE 0, PRESS 1, REPEAT 2.
 */
module AppInput {
  import opened Common

  const GLFW_KEY_UNKNOWN: int := -1
  const GLFW_KEY_SPACE: int := 32
  const GLFW_KEY_LAST: int := 348
  const GLFW_MOUSE_BUTTON_1: int := 0
  const GLFW_MOUSE_BUTTON_LAST: int := 7

  const GLFW_RELEASE: int := 0
  const GLFW_PRESS: int := 1
  const GLFW_REPEAT: int := 2

  /** InputState: this frame's state and last frame's. */
  datatype Snapshot = Snapshot(state: Byte, prev: Byte)

  /** One poll of a code: last frame's state moves to prev, and the state is whether GLFW reports it pressed. */
  function Poll(s: Snapshot, polled: int): Snapshot
  {
    Snapshot(if polled == GLFW_PRESS then 1 else 0, s.state)
  }

  /** A code went down between the last two polls. */
  predicate Hit(s: Snapshot)
  {
    s.state != 0 && s.prev == 0
  }

  /** A code went up between the last two polls. */
  predicate Up(s: Snapshot)
  {
    s.prev != 0 && s.state == 0
  }

  /** The key codes the Hit/Down/Up queries accept. */
  predicate KeyAccepted(keycode: I16)
  {
    GLFW_KEY_UNKNOWN < keycode <= GLFW_KEY_LAST
  }

  /** The key codes minimalKeyPressed/Released hand to GLFW: all but the unknown key and codes past the last. */
  predicate KeyReachesGlfw(keycode: I16)
  {
    keycode <= GLFW_KEY_LAST && keycode != GLFW_KEY_UNKNOWN
  }

  predicate ButtonAccepted(button: I8)
  {
    GLFW_MOUSE_BUTTON_1 <= button <= GLFW_MOUSE_BUTTON_LAST
  }

  /** minimalKeyPressed: GLFW reports the key pressed or repeating. */
  predicate KeyPressed(keycode: I16, polled: int)
  {
    KeyReachesGlfw(keycode) && (polled == GLFW_PRESS || polled == GLFW_REPEAT)
  }

  /** minimalKeyReleased: GLFW reports the key released. */
  predicate KeyReleased(keycode: I16, polled: int)
  {
    KeyReachesGlfw(keycode) && polled == GLFW_RELEASE
  }

  /** minimalMousePressed */
  predicate MousePressed(button: I8, polled: int)
  {
    ButtonAccepted(button) && polled == GLFW_PRESS
  }

  /** minimalMouseReleased */
  predicate MouseReleased(button: I8, polled: int)
  {
    ButtonAccepted(button) && polled == GLFW_RELEASE
  }

  /** The static key_states and mouse_states arrays. */
  class InputState {
    var keys: array<Snapshot>
    var buttons: array<Snapshot>

    ghost predicate Valid()
      reads this
    {
      keys.Length == GLFW_KEY_LAST + 1 && buttons.Length == GLFW_MOUSE_BUTTON_LAST + 1 && keys != buttons
    }

    /** Static storage starts zeroed. */
    constructor ()
      ensures Valid()
      ensures forall k :: 0 <= k < keys.Length ==> keys[k] == Snapshot(0, 0)
      ensures forall b :: 0 <= b < buttons.Length ==> buttons[b] == Snapshot(0, 0)
    {
      keys := new Snapshot[GLFW_KEY_LAST + 1](_ => Snapshot(0, 0));
      buttons := new Snapshot[GLFW_MOUSE_BUTTON_LAST + 1](_ => Snapshot(0, 0));
    }

    /**
     * minimalUpdateInput: every key from SPACE to LAST and every button is
     * polled once; `polledKeys[k]` and `polledButtons[b]` are what GLFW
     * answers for key k and button b. Codes below SPACE are not polled.
     */
    method UpdateInput(polledKeys: seq<int>, polledButtons: seq<int>)
      requires Valid()
      requires |polledKeys| == keys.Length && |polledButtons| == buttons.Length
      modifies keys, buttons
      ensures Valid()
      ensures forall k :: GLFW_KEY_SPACE <= k < keys.Length ==> keys[k] == Poll(old(keys[k]), polledKeys[k])
      ensures forall k :: 0 <= k < GLFW_KEY_SPACE ==> keys[k] == old(keys[k])
      ensures forall b :: 0 <= b < buttons.Length ==> buttons[b] == Poll(old(buttons[b]), polledButtons[b])
    {
      for i := GLFW_KEY_SPACE to GLFW_KEY_LAST + 1
        invariant forall k :: GLFW_KEY_SPACE <= k < i ==> keys[k] == Poll(old(keys[k]), polledKeys[k])
        invariant forall k :: 0 <= k < GLFW_KEY_SPACE || i <= k < keys.Length ==> keys[k] == old(keys[k])
        invariant buttons[..] == old(buttons[..])
      {
        keys[i] := keys[i].(prev := keys[i].state);
        keys[i] := keys[i].(state := if polledKeys[i] == GLFW_PRESS then 1 else 0);
      }
      for i := GLFW_MOUSE_BUTTON_1 to GLFW_MOUSE_BUTTON_LAST + 1
        invariant forall b :: 0 <= b < i ==> buttons[b] == Poll(old(buttons[b]), polledButtons[b])
        invariant forall b :: i <= b < buttons.Length ==> buttons[b] == old(buttons[b])
        invariant forall k :: GLFW_KEY_SPACE <= k < keys.Length ==> keys[k] == Poll(old(keys[k]), polledKeys[k])
        invariant forall k :: 0 <= k < GLFW_KEY_SPACE ==> keys[k] == old(keys[k])
      {
        buttons[i] := buttons[i].(prev := buttons[i].state);
        buttons[i] := buttons[i].(state := if polledButtons[i] == GLFW_PRESS then 1 else 0);
      }
    }

    /** minimalKeyHit */
    predicate KeyHit(keycode: I16)
      reads this, keys
      requires Valid()
    {
      KeyAccepted(keycode) && Hit(keys[keycode])
    }

    /** minimalKeyDown */
    predicate KeyDown(keycode: I16)
      reads this, keys
      requires Valid()
    {
      KeyAccepted(keycode) && keys[keycode].state != 0
    }

    /** minimalKeyUp */
    predicate KeyUp(keycode: I16)
      reads this, keys
      requires Valid()
    {
      KeyAccepted(keycode) && Up(keys[keycode])
    }

    /** minimalMouseHit */
    predicate MouseHit(button: I8)
      reads this, buttons
      requires Valid()
    {
      ButtonAccepted(button) && Hit(buttons[button])
    }

    /** minimalMouseDown */
    predicate MouseDown(button: I8)
      reads this, buttons
      requires Valid()
    {
      ButtonAccepted(button) && buttons[button].state != 0
    }

    /** minimalMouseUp */
    predicate MouseUp(button: I8)
      reads this, buttons
      requires Valid()
    {
      ButtonAccepted(button) && Up(buttons[button])
    }
  }

  // ---------------------------------------------------------------------------
  // Properties

  /**
   * After a poll, a code reads as hit exactly when GLFW reports it pressed
   * and it was not down the frame before, as up exactly when it is no longer
   * pressed but was, and as down exactly when GLFW reports it pressed; hit
   * and up never hold together.
   */
  lemma QueriesAfterPoll(s: Snapshot, polled: int)
    ensures Hit(Poll(s, polled)) <==> polled == GLFW_PRESS && s.state == 0
    ensures Up(Poll(s, polled)) <==> polled != GLFW_PRESS && s.state != 0
    ensures Poll(s, polled).state != 0 <==> polled == GLFW_PRESS
    ensures !(Hit(Poll(s, polled)) && Up(Poll(s, polled)))
  {
  }

  /** A code polled with the same answer twice in a row reads as neither hit nor up. */
  lemma SteadyCodeHasNoEdge(s: Snapshot, polled: int)
    ensures !Hit(Poll(Poll(s, polled), polled)) && !Up(Poll(Poll(s, polled), polled))
  {
  }

  /**
   * The edge queries reject every code outside the arrays' range; they and
   * their state answers agree on the codes they accept.
   */
  lemma EdgeQueriesInRange(input: InputState, keycode: I16, button: I8)
    requires input.Valid()
    ensures !KeyAccepted(keycode) ==> !input.KeyHit(keycode) && !input.KeyDown(keycode) && !input.KeyUp(keycode)
    ensures !ButtonAccepted(button) ==> !input.MouseHit(button) && !input.MouseDown(button) && !input.MouseUp(button)
    ensures !(input.KeyHit(keycode) && input.KeyUp(keycode))
    ensures !(input.MouseHit(button) && input.MouseUp(button))
    ensures input.KeyHit(keycode) ==> input.KeyDown(keycode)
    ensures input.MouseHit(button) ==> input.MouseDown(button)
  {
  }

  /**
   * The GLFW-backed key queries reject only the unknown key and codes past
   * the last: a code below -1 reaches GLFW, although the edge queries reject
   * it. Pressed and released never hold together.
   */
  lemma KeyQueriesReachGlfw(keycode: I16, polled: int)
    ensures KeyReachesGlfw(-2) && !KeyAccepted(-2)
    ensures KeyAccepted(keycode) ==> KeyReachesGlfw(keycode)
    ensures !(KeyPressed(keycode, polled) && KeyReleased(keycode, polled))
    ensures !(MousePressed(ToI8(keycode), polled) && MouseReleased(ToI8(keycode), polled))
  {
  }
}
