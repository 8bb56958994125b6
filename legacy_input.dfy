/**
 * The key queries of the oldest generation (Minimal/src/Minimal/MinimalInput.c),
 * read straight from a window's key state bytes. The scan-code table and its
 * lookup are the KeyTable module: this file's table makes the same
 * assignments, in an `int` array, and MinimalTranslateKey is the lookup.
 */
module LegacyInput {
  import opened Common
  import KeyTable
  import LegacyWindow

  /** MinimalKeyPressed: a valid key that is pressed or repeating. */
  predicate KeyPressed(window: LegacyWindow.Window, keycode: U32)
    reads window, window.keyState
    requires window.Valid()
  {
    KeyTable.KeycodeValid(keycode) &&
      (window.keyState[keycode] == LegacyWindow.PRESS || window.keyState[keycode] == LegacyWindow.REPEAT)
  }

  /** MinimalKeyReleased: a valid key that is released. */
  predicate KeyReleased(window: LegacyWindow.Window, keycode: U32)
    reads window, window.keyState
    requires window.Valid()
  {
    KeyTable.KeycodeValid(keycode) && window.keyState[keycode] == LegacyWindow.RELEASE
  }

  /**
   * For a valid key whose state byte is one of the three key states,
   * exactly one of the two queries holds; for an invalid key neither does.
   */
  lemma ExactlyOneQuery(window: LegacyWindow.Window, keycode: U32)
    requires window.Valid() && window.KeyStatesWellFormed()
    ensures KeyTable.KeycodeValid(keycode) ==> (KeyPressed(window, keycode) <==> !KeyReleased(window, keycode))
    ensures !KeyTable.KeycodeValid(keycode) ==> !KeyPressed(window, keycode) && !KeyReleased(window, keycode)
  {
  }
}
