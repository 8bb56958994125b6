/**
 * The scan-code translation table shared by the Win32 generations
 * (src/Minimal/MinimalWindow.c and Minimal/src/Minimal/MinimalInput.c): a
 * static 512-entry array, filled with KEY_UNKNOWN and then with one keycode
 * per known scan code of PC scan-code set 1 (bit 8 marks the extended keys).
 * Both copies make the same assignments; the newer one keeps the entries as
 * uint32_t, so its KEY_UNKNOWN reads back as 0xFFFFFFFF.
 */
module KeyTable {
  import opened Common

  const KEY_UNKNOWN: int := -1

  /** The library's keycodes. */
  const KEY_ESCAPE: int := 0
  const KEY_F1: int := 1
  const KEY_F2: int := 2
  const KEY_F3: int := 3
  const KEY_F4: int := 4
  const KEY_F5: int := 5
  const KEY_F6: int := 6
  const KEY_F7: int := 7
  const KEY_F8: int := 8
  const KEY_F9: int := 9
  const KEY_F10: int := 10
  const KEY_F11: int := 11
  const KEY_F12: int := 12
  const KEY_ENTER: int := 13
  const KEY_TAB: int := 14
  const KEY_BACKSPACE: int := 15
  const KEY_INSERT: int := 16
  const KEY_DELETE: int := 17
  const KEY_RIGHT: int := 18
  const KEY_LEFT: int := 19
  const KEY_DOWN: int := 20
  const KEY_UP: int := 21
  const KEY_PAGE_UP: int := 22
  const KEY_PAGE_DOWN: int := 23
  const KEY_HOME: int := 24
  const KEY_END: int := 25
  const KEY_CAPS_LOCK: int := 26
  const KEY_SCROLL_LOCK: int := 27
  const KEY_NUM_LOCK: int := 28
  const KEY_PRINT_SCREEN: int := 29
  const KEY_PAUSE: int := 30
  const KEY_SPACE: int := 32
  const KEY_APOSTROPHE: int := 39
  const KEY_COMMA: int := 44
  const KEY_MINUS: int := 45
  const KEY_PERIOD: int := 46
  const KEY_SLASH: int := 47
  const KEY_0: int := 48
  const KEY_1: int := 49
  const KEY_2: int := 50
  const KEY_3: int := 51
  const KEY_4: int := 52
  const KEY_5: int := 53
  const KEY_6: int := 54
  const KEY_7: int := 55
  const KEY_8: int := 56
  const KEY_9: int := 57
  const KEY_SEMICOLON: int := 59
  const KEY_EQUAL: int := 61
  const KEY_A: int := 65
  const KEY_B: int := 66
  const KEY_C: int := 67
  const KEY_D: int := 68
  const KEY_E: int := 69
  const KEY_F: int := 70
  const KEY_G: int := 71
  const KEY_H: int := 72
  const KEY_I: int := 73
  const KEY_J: int := 74
  const KEY_K: int := 75
  const KEY_L: int := 76
  const KEY_M: int := 77
  const KEY_N: int := 78
  const KEY_O: int := 79
  const KEY_P: int := 80
  const KEY_Q: int := 81
  const KEY_R: int := 82
  const KEY_S: int := 83
  const KEY_T: int := 84
  const KEY_U: int := 85
  const KEY_V: int := 86
  const KEY_W: int := 87
  const KEY_X: int := 88
  const KEY_Y: int := 89
  const KEY_Z: int := 90
  const KEY_LEFT_BRACKET: int := 91
  const KEY_BACKSLASH: int := 92
  const KEY_RIGHT_BRACKET: int := 93
  const KEY_GRAVE_ACCENT: int := 96
  const KEY_NP_0: int := 256
  const KEY_NP_1: int := 257
  const KEY_NP_2: int := 258
  const KEY_NP_3: int := 259
  const KEY_NP_4: int := 260
  const KEY_NP_5: int := 261
  const KEY_NP_6: int := 262
  const KEY_NP_7: int := 263
  const KEY_NP_8: int := 264
  const KEY_NP_9: int := 265
  const KEY_NP_DECIMAL: int := 266
  const KEY_NP_DIVIDE: int := 267
  const KEY_NP_MULTIPLY: int := 268
  const KEY_NP_SUBTRACT: int := 269
  const KEY_NP_ADD: int := 270
  const KEY_NP_ENTER: int := 271
  const KEY_NP_EQUAL: int := 272
  const KEY_LEFT_SHIFT: int := 273
  const KEY_LEFT_CONTROL: int := 274
  const KEY_LEFT_ALT: int := 275
  const KEY_LEFT_SUPER: int := 276
  const KEY_RIGHT_SHIFT: int := 277
  const KEY_RIGHT_CONTROL: int := 278
  const KEY_RIGHT_ALT: int := 279
  const KEY_RIGHT_SUPER: int := 280

  const KEY_FIRST: int := KEY_ESCAPE
  const KEY_LAST: int := KEY_RIGHT_SUPER

  /** Number of entries: every 9-bit scan code. */
  const TABLE_SIZE: int := 512

  /** KEY_UNKNOWN as a uint32_t entry. */
  const UNKNOWN_U32: U32 := 0xFFFF_FFFF

  /** MinimalKeycodeValid, on an unsigned keycode. */
  predicate KeycodeValid(keycode: U32)
  {
    KEY_FIRST <= keycode <= KEY_LAST
  }

  /**
   * The keycode MinimalCreateKeyTable stores for a scan code; KEY_UNKNOWN for
   * the scan codes it leaves out. No scan code is assigned twice.
   */
  function KeyOf(scancode: int): (k: int)
    ensures k == KEY_UNKNOWN || KEY_FIRST <= k <= KEY_LAST
    ensures k != KEY_UNKNOWN ==> 0 < scancode < TABLE_SIZE
  {
    match scancode
    case 0x00B => KEY_0
    case 0x002 => KEY_1
    case 0x003 => KEY_2
    case 0x004 => KEY_3
    case 0x005 => KEY_4
    case 0x006 => KEY_5
    case 0x007 => KEY_6
    case 0x008 => KEY_7
    case 0x009 => KEY_8
    case 0x00A => KEY_9
    case 0x01E => KEY_A
    case 0x030 => KEY_B
    case 0x02E => KEY_C
    case 0x020 => KEY_D
    case 0x012 => KEY_E
    case 0x021 => KEY_F
    case 0x022 => KEY_G
    case 0x023 => KEY_H
    case 0x017 => KEY_I
    case 0x024 => KEY_J
    case 0x025 => KEY_K
    case 0x026 => KEY_L
    case 0x032 => KEY_M
    case 0x031 => KEY_N
    case 0x018 => KEY_O
    case 0x019 => KEY_P
    case 0x010 => KEY_Q
    case 0x013 => KEY_R
    case 0x01F => KEY_S
    case 0x014 => KEY_T
    case 0x016 => KEY_U
    case 0x02F => KEY_V
    case 0x011 => KEY_W
    case 0x02D => KEY_X
    case 0x015 => KEY_Y
    case 0x02C => KEY_Z
    case 0x028 => KEY_APOSTROPHE
    case 0x02B => KEY_BACKSLASH
    case 0x033 => KEY_COMMA
    case 0x00D => KEY_EQUAL
    case 0x029 => KEY_GRAVE_ACCENT
    case 0x01A => KEY_LEFT_BRACKET
    case 0x00C => KEY_MINUS
    case 0x034 => KEY_PERIOD
    case 0x01B => KEY_RIGHT_BRACKET
    case 0x027 => KEY_SEMICOLON
    case 0x035 => KEY_SLASH
    case 0x00E => KEY_BACKSPACE
    case 0x153 => KEY_DELETE
    case 0x14F => KEY_END
    case 0x01C => KEY_ENTER
    case 0x001 => KEY_ESCAPE
    case 0x147 => KEY_HOME
    case 0x152 => KEY_INSERT
    case 0x151 => KEY_PAGE_DOWN
    case 0x149 => KEY_PAGE_UP
    case 0x045 => KEY_PAUSE
    case 0x146 => KEY_PAUSE
    case 0x039 => KEY_SPACE
    case 0x00F => KEY_TAB
    case 0x03A => KEY_CAPS_LOCK
    case 0x145 => KEY_NUM_LOCK
    case 0x046 => KEY_SCROLL_LOCK
    case 0x03B => KEY_F1
    case 0x03C => KEY_F2
    case 0x03D => KEY_F3
    case 0x03E => KEY_F4
    case 0x03F => KEY_F5
    case 0x040 => KEY_F6
    case 0x041 => KEY_F7
    case 0x042 => KEY_F8
    case 0x043 => KEY_F9
    case 0x044 => KEY_F10
    case 0x057 => KEY_F11
    case 0x058 => KEY_F12
    case 0x038 => KEY_LEFT_ALT
    case 0x01D => KEY_LEFT_CONTROL
    case 0x02A => KEY_LEFT_SHIFT
    case 0x15B => KEY_LEFT_SUPER
    case 0x137 => KEY_PRINT_SCREEN
    case 0x138 => KEY_RIGHT_ALT
    case 0x11D => KEY_RIGHT_CONTROL
    case 0x036 => KEY_RIGHT_SHIFT
    case 0x15C => KEY_RIGHT_SUPER
    case 0x150 => KEY_DOWN
    case 0x14B => KEY_LEFT
    case 0x14D => KEY_RIGHT
    case 0x148 => KEY_UP
    case 0x052 => KEY_NP_0
    case 0x04F => KEY_NP_1
    case 0x050 => KEY_NP_2
    case 0x051 => KEY_NP_3
    case 0x04B => KEY_NP_4
    case 0x04C => KEY_NP_5
    case 0x04D => KEY_NP_6
    case 0x047 => KEY_NP_7
    case 0x048 => KEY_NP_8
    case 0x049 => KEY_NP_9
    case 0x04E => KEY_NP_ADD
    case 0x053 => KEY_NP_DECIMAL
    case 0x135 => KEY_NP_DIVIDE
    case 0x11C => KEY_NP_ENTER
    case 0x059 => KEY_NP_EQUAL
    case 0x037 => KEY_NP_MULTIPLY
    case 0x04A => KEY_NP_SUBTRACT
    case _ => KEY_UNKNOWN
  }

  /** The static key table. */
  class ScancodeTable {
    var entries: array<int>

    ghost predicate Valid()
      reads this
    {
      entries.Length == TABLE_SIZE
    }

    /** The table after MinimalCreateKeyTable has run. */
    ghost predicate Created()
      reads this, entries
      requires Valid()
    {
      forall s :: 0 <= s < TABLE_SIZE ==> entries[s] == KeyOf(s)
    }

    /** The zero-initialised static array, before the table is created. */
    constructor ()
      ensures Valid()
      ensures forall s :: 0 <= s < TABLE_SIZE ==> entries[s] == 0
    {
      entries := new int[TABLE_SIZE](_ => 0);
    }

    /**
     * MinimalCreateKeyTable: every entry unknown, then one keycode per known
     * scan code (written here in scan-code order).
     */
    method CreateKeyTable()
      requires Valid()
      modifies entries
      ensures Valid() && Created()
    {
      forall s | 0 <= s < entries.Length {
        entries[s] := KEY_UNKNOWN;
      }

      for scancode := 0 to TABLE_SIZE
        invariant forall s :: 0 <= s < TABLE_SIZE ==>
          entries[s] == if s < scancode then KeyOf(s) else KEY_UNKNOWN
      {
        if KeyOf(scancode) != KEY_UNKNOWN {
          entries[scancode] := KeyOf(scancode);
        }
      }
    }

    /** MinimalTranslateKey of the older generation: the entry as a signed int. */
    function TranslateKey(scancode: U32): (k: int)
      reads this, entries
      requires Valid() && Created()
      requires scancode < TABLE_SIZE
      ensures k == KeyOf(scancode)
      ensures k == KEY_UNKNOWN || KeycodeValid(k)
    {
      entries[scancode]
    }

    /** MinimalTranslateKey of the newer generation: the entry as uint32_t. */
    function TranslateKeyU32(scancode: U32): (k: U32)
      reads this, entries
      requires Valid() && Created()
      requires scancode < TABLE_SIZE
      ensures k == UNKNOWN_U32 <==> KeyOf(scancode) == KEY_UNKNOWN
      ensures KeycodeValid(k) <==> k != UNKNOWN_U32
      ensures k != UNKNOWN_U32 ==> k == KeyOf(scancode)
    {
      ToU32(entries[scancode])
    }
  }

  // ---------------------------------------------------------------------------
  // Properties of the table's contents

  /** A few fixed translations. */
  lemma FixedPairs()
    ensures KeyOf(0x001) == KEY_ESCAPE
    ensures KeyOf(0x01E) == KEY_A
    ensures KeyOf(0x039) == KEY_SPACE
    ensures KeyOf(0x11C) == KEY_NP_ENTER
    ensures KeyOf(0x000) == KEY_UNKNOWN
  {
  }

  /** Two scan codes give PAUSE, so the table is not injective. */
  lemma PauseTwice()
    ensures KeyOf(0x045) == KeyOf(0x146) == KEY_PAUSE
  {
  }
}
