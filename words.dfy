/**
 * The 16-bit halves of a 32-bit event parameter: LOWORD/HIWORD as defined in
 * src/event.c and src/Minimal/MinimalEvent.h, and the packing of a mouse
 * button and an action into one word (MINIMAL_MAKE_MOUSE_U, and the same
 * expression written out in the window files).
 */
module Words {
  import opened Common

  /**
   * The four-word MinimalEvent record of the later generations
   * (src/Minimal/MinimalEvent.h and src/minimal/event.c): a type tag, an
   * unsigned word and two signed words.
   */
  datatype EventRecord = EventRecord(kind: U32, uParam: U32, lParam: I32, rParam: I32)

  /** LOWORD: the low 16 bits. */
  function LoWord(dw: U32): U16
  {
    dw % TWO16
  }

  /** HIWORD: the high 16 bits. */
  function HiWord(dw: U32): U16
  {
    dw / TWO16
  }

  /** (button << 16) + action, computed in 32-bit unsigned arithmetic. */
  function MakeMouseU(button: int, action: int): (r: U32)
    ensures 0 <= button < TWO16 && 0 <= action < TWO16 ==> r == button * TWO16 + action
  {
    ToU32(button * TWO16 + action)
  }

  /** A word is its two halves put back together. */
  lemma HalvesRebuild(dw: U32)
    ensures MakeMouseU(HiWord(dw), LoWord(dw)) == dw
  {
  }

  /** Packing a button and an action that fit in 16 bits each is undone by HIWORD and LOWORD. */
  lemma PackUnpack(button: int, action: int)
    requires 0 <= button < TWO16 && 0 <= action < TWO16
    ensures HiWord(MakeMouseU(button, action)) == button
    ensures LoWord(MakeMouseU(button, action)) == action
  {
  }

  /** A button of 2^16 or more does not survive: its high bits are cut off by the 32-bit shift. */
  lemma PackDropsHighBits()
    ensures HiWord(MakeMouseU(TWO16, 1)) == 0
  {
  }
}
