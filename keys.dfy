/**
 * The key vocabulary of the six-key keypad (keypad-serial/src/keys.rs): keys
 * and modifier keys with their tagged 16-bit codes, key presses, the
 * key-press builder, key combos and their text renderings.
 */
module Keys {

  datatype Option<T> = None | Some(value: T)

  // ---------------------------------------------------------------------
  // Modifier keys

  /** Tag in the high nibble of every modifier code. */
  const ModifierTag: bv16 := 0xE000

  /**
   * The eight modifier keys. Their low bits are the bits of the
   * boot-keyboard modifier byte (Appendix B.1 of the HID 1.11 class
   * definition): bit 0 left Ctrl up to bit 7 right GUI.
   */
  datatype ModifierKey =
    | LeftCtrl | LeftShift | LeftAlt | LeftGui
    | RightCtrl | RightShift | RightAlt | RightGui

  /** The 16-bit code of a modifier key (`m as u16`). */
  function ModifierCode(m: ModifierKey): (code: bv16)
    ensures code & 0xFF00 == ModifierTag && code & 0x00FF != 0
  {
    match m
    case LeftCtrl => 0x01 | ModifierTag
    case LeftShift => 0x02 | ModifierTag
    case LeftAlt => 0x04 | ModifierTag
    case LeftGui => 0x08 | ModifierTag
    case RightCtrl => 0x10 | ModifierTag
    case RightShift => 0x20 | ModifierTag
    case RightAlt => 0x40 | ModifierTag
    case RightGui => 0x80 | ModifierTag
  }

  /** `ModifierKey::ALL`, in declaration order. */
  const AllModifiers: seq<ModifierKey> :=
    [LeftCtrl, LeftShift, LeftAlt, LeftGui, RightCtrl, RightShift, RightAlt, RightGui]

  /** Entry i of AllModifiers has the code `0xE000 | 1 << i`, and every modifier is listed. */
  lemma ModifierCodeLayout(m: ModifierKey, i: nat)
    requires i < |AllModifiers|
    ensures |AllModifiers| == 8 && m in AllModifiers
    ensures ModifierCode(AllModifiers[i]) == ModifierTag | (1 << i)
  {
    if i == 0 {
    } else if i == 1 {
    } else if i == 2 {
    } else if i == 3 {
    } else if i == 4 {
    } else if i == 5 {
    } else if i == 6 {
    } else {
      assert i == 7;
    }
  }

  /** Two different modifiers share only the tag: their bits are distinct single bits. */
  lemma ModifierCodesDisjoint(m1: ModifierKey, m2: ModifierKey)
    ensures ModifierCode(m1) & 0xFF00 == ModifierTag
    ensures ModifierCode(m1) & 0x00FF != 0
    ensures m1 != m2 ==> ModifierCode(m1) & ModifierCode(m2) == ModifierTag
  {
  }

  // ---------------------------------------------------------------------
  // Keys

  /** Tag in the high byte of every key code. */
  const KeyTag: bv16 := 0xF000

  /**
   * The codes keys are declared with: the tag 0xF000 in the high byte and,
   * in the low byte, a usage id of the Keyboard/Keypad usage page 0x07
   * (section 10 of the USB HID Usage Tables 1.12) from 4 to 101 or from
   * 104 to 115.
   */
  predicate IsKeyCode(c: bv16) {
    c & 0xFF00 == KeyTag && (4 <= c & 0xFF <= 101 || 104 <= c & 0xFF <= 115)
  }

  /**
   * `Key` is a C-like enumeration whose variants are declared with explicit
   * 16-bit codes (`k as u16` is the code), so a key is modelled as its code.
   * Each constant below is checked to be a key code, and All (further down)
   * is shown to list every key code exactly once: the constants are exactly
   * the keys.
   */
  type Key = c: bv16 | IsKeyCode(c) witness 4 | 0xF000

  const A: Key := 4 | 0xF000
  const B: Key := 5 | 0xF000
  const C: Key := 6 | 0xF000
  const D: Key := 7 | 0xF000
  const E: Key := 8 | 0xF000
  const F: Key := 9 | 0xF000
  const G: Key := 10 | 0xF000
  const H: Key := 11 | 0xF000
  const I: Key := 12 | 0xF000
  const J: Key := 13 | 0xF000
  const K: Key := 14 | 0xF000
  const L: Key := 15 | 0xF000
  const M: Key := 16 | 0xF000
  const N: Key := 17 | 0xF000
  const O: Key := 18 | 0xF000
  const P: Key := 19 | 0xF000
  const Q: Key := 20 | 0xF000
  const R: Key := 21 | 0xF000
  const S: Key := 22 | 0xF000
  const T: Key := 23 | 0xF000
  const U: Key := 24 | 0xF000
  const V: Key := 25 | 0xF000
  const W: Key := 26 | 0xF000
  const X: Key := 27 | 0xF000
  const Y: Key := 28 | 0xF000
  const Z: Key := 29 | 0xF000
  const Key1: Key := 30 | 0xF000
  const Key2: Key := 31 | 0xF000
  const Key3: Key := 32 | 0xF000
  const Key4: Key := 33 | 0xF000
  const Key5: Key := 34 | 0xF000
  const Key6: Key := 35 | 0xF000
  const Key7: Key := 36 | 0xF000
  const Key8: Key := 37 | 0xF000
  const Key9: Key := 38 | 0xF000
  const Key0: Key := 39 | 0xF000
  const Enter: Key := 40 | 0xF000
  const Esc: Key := 41 | 0xF000
  const Backspace: Key := 42 | 0xF000
  const Tab: Key := 43 | 0xF000
  const Space: Key := 44 | 0xF000
  const Minus: Key := 45 | 0xF000
  const Equal: Key := 46 | 0xF000
  const LeftBrace: Key := 47 | 0xF000
  const RightBrace: Key := 48 | 0xF000
  const Backslash: Key := 49 | 0xF000
  const NonUsNum: Key := 50 | 0xF000
  const Semicolon: Key := 51 | 0xF000
  const Guote: Key := 52 | 0xF000
  const Tilde: Key := 53 | 0xF000
  const Comma: Key := 54 | 0xF000
  const Period: Key := 55 | 0xF000
  const Slash: Key := 56 | 0xF000
  const CapsLock: Key := 57 | 0xF000
  const F1: Key := 58 | 0xF000
  const F2: Key := 59 | 0xF000
  const F3: Key := 60 | 0xF000
  const F4: Key := 61 | 0xF000
  const F5: Key := 62 | 0xF000
  const F6: Key := 63 | 0xF000
  const F7: Key := 64 | 0xF000
  const F8: Key := 65 | 0xF000
  const F9: Key := 66 | 0xF000
  const F10: Key := 67 | 0xF000
  const F11: Key := 68 | 0xF000
  const F12: Key := 69 | 0xF000
  const PrintScreen: Key := 70 | 0xF000
  const ScrollLock: Key := 71 | 0xF000
  const Pause: Key := 72 | 0xF000
  const Insert: Key := 73 | 0xF000
  const Home: Key := 74 | 0xF000
  const PageUp: Key := 75 | 0xF000
  const Delete: Key := 76 | 0xF000
  const End: Key := 77 | 0xF000
  const PageDown: Key := 78 | 0xF000
  const Right: Key := 79 | 0xF000
  const Left: Key := 80 | 0xF000
  const Down: Key := 81 | 0xF000
  const Up: Key := 82 | 0xF000
  const NumLock: Key := 83 | 0xF000
  const KeyPadSlash: Key := 84 | 0xF000
  const KeyPadAsterix: Key := 85 | 0xF000
  const KeyPadMinus: Key := 86 | 0xF000
  const KeyPadPlus: Key := 87 | 0xF000
  const KeyPadEnter: Key := 88 | 0xF000
  const KeyPad1: Key := 89 | 0xF000
  const KeyPad2: Key := 90 | 0xF000
  const KeyPad3: Key := 91 | 0xF000
  const KeyPad4: Key := 92 | 0xF000
  const KeyPad5: Key := 93 | 0xF000
  const KeyPad6: Key := 94 | 0xF000
  const KeyPad7: Key := 95 | 0xF000
  const KeyPad8: Key := 96 | 0xF000
  const KeyPad9: Key := 97 | 0xF000
  const KeyPad0: Key := 98 | 0xF000
  const KeyPadPeriod: Key := 99 | 0xF000
  const NonUsBs: Key := 100 | 0xF000
  const Menu: Key := 101 | 0xF000
  const F13: Key := 104 | 0xF000
  const F14: Key := 105 | 0xF000
  const F15: Key := 106 | 0xF000
  const F16: Key := 107 | 0xF000
  const F17: Key := 108 | 0xF000
  const F18: Key := 109 | 0xF000
  const F19: Key := 110 | 0xF000
  const F20: Key := 111 | 0xF000
  const F21: Key := 112 | 0xF000
  const F22: Key := 113 | 0xF000
  const F23: Key := 114 | 0xF000
  const F24: Key := 115 | 0xF000

  /** No key has the code 0, the value a missing second press is written as. */
  lemma KeyCodeNonZero(k: Key)
    ensures k != 0 && k & 0xFF00 == KeyTag
  {
    assert IsKeyCode(k);
  }

  /**
   * `Key::ALL`: every key, in declaration order. The table is written in
   * rows of ten, and the facts about it (membership, order, names) are
   * proved row by row in the InRow, RowAscending, RowName and NamesInRow
   * members below, so that each proof obligation stays small.
   */
  const All: seq<Key> := Row0 + (Row1 + (Row2 + (Row3 + (Row4 + (Row5 + (Row6 + (Row7 + (Row8 + (Row9 + (Row10))))))))))

  const Row0: seq<Key> := [A, B, C, D, E, F, G, H, I, J]
  const Row1: seq<Key> := [K, L, M, N, O, P, Q, R, S, T]
  const Row2: seq<Key> := [U, V, W, X, Y, Z, Key1, Key2, Key3, Key4]
  const Row3: seq<Key> := [Key5, Key6, Key7, Key8, Key9, Key0, Enter, Esc, Backspace, Tab]
  const Row4: seq<Key> := [Space, Minus, Equal, LeftBrace, RightBrace, Backslash, NonUsNum, Semicolon, Guote, Tilde]
  const Row5: seq<Key> := [Comma, Period, Slash, CapsLock, F1, F2, F3, F4, F5, F6]
  const Row6: seq<Key> := [F7, F8, F9, F10, F11, F12, PrintScreen, ScrollLock, Pause, Insert]
  const Row7: seq<Key> := [Home, PageUp, Delete, End, PageDown, Right, Left, Down, Up, NumLock]
  const Row8: seq<Key> := [KeyPadSlash, KeyPadAsterix, KeyPadMinus, KeyPadPlus, KeyPadEnter, KeyPad1, KeyPad2, KeyPad3, KeyPad4, KeyPad5]
  const Row9: seq<Key> := [KeyPad6, KeyPad7, KeyPad8, KeyPad9, KeyPad0, KeyPadPeriod, NonUsBs, Menu, F13, F14]
  const Row10: seq<Key> := [F15, F16, F17, F18, F19, F20, F21, F22, F23, F24]

  /** Every code listed after another one is larger. */
  predicate Ascending(s: seq<Key>) {
    forall i, j :: 0 <= i < j < |s| ==> s[i] < s[j]
  }

  /** Each code is smaller than the next one. */
  predicate StepsUp(s: seq<Key>) {
    forall i :: 0 <= i < |s| - 1 ==> s[i] < s[i + 1]
  }

  lemma {:induction false} StepsUpAscending(s: seq<Key>)
    requires StepsUp(s)
    ensures Ascending(s)
  {
    if |s| > 1 {
      var t := s[1..];
      assert StepsUp(t) by {
        forall i | 0 <= i < |t| - 1
          ensures t[i] < t[i + 1]
        {
          assert t[i] == s[i + 1] && t[i + 1] == s[i + 2];
        }
      }
      StepsUpAscending(t);
      forall i, j | 0 <= i < j < |s|
        ensures s[i] < s[j]
      {
        if 0 < i {
          assert t[i - 1] < t[j - 1];
        } else if 1 < j {
          assert s[0] < t[0] < t[j - 1];
        }
      }
    }
  }

  lemma AscendingAppend(a: seq<Key>, b: seq<Key>)
    requires Ascending(a) && Ascending(b)
    requires |a| > 0 && |b| > 0 && a[|a| - 1] < b[0]
    ensures Ascending(a + b)
  {
    forall i, j | 0 <= i < j < |a + b|
      ensures (a + b)[i] < (a + b)[j]
    {
      if j < |a| {
        assert (a + b)[i] == a[i] && (a + b)[j] == a[j];
      } else if |a| <= i {
        assert (a + b)[i] == b[i - |a|] && (a + b)[j] == b[j - |a|];
      } else {
        assert a[i] <= a[|a| - 1] && b[0] <= b[j - |a|];
        assert (a + b)[i] == a[i] && (a + b)[j] == b[j - |a|];
      }
    }
  }

  /** The keys with usage ids 4 to 13 form row 0 of All. */
  lemma InRow0(k: Key)
    requires 4 <= k & 0xFF <= 13
    ensures k in Row0
  {
    assert IsKeyCode(k);
  }

  /** The keys with usage ids 14 to 23 form row 1 of All. */
  lemma InRow1(k: Key)
    requires 14 <= k & 0xFF <= 23
    ensures k in Row1
  {
    assert IsKeyCode(k);
  }

  /** The keys with usage ids 24 to 33 form row 2 of All. */
  lemma InRow2(k: Key)
    requires 24 <= k & 0xFF <= 33
    ensures k in Row2
  {
    assert IsKeyCode(k);
  }

  /** The keys with usage ids 34 to 43 form row 3 of All. */
  lemma InRow3(k: Key)
    requires 34 <= k & 0xFF <= 43
    ensures k in Row3
  {
    assert IsKeyCode(k);
  }

  /** The keys with usage ids 44 to 53 form row 4 of All. */
  lemma InRow4(k: Key)
    requires 44 <= k & 0xFF <= 53
    ensures k in Row4
  {
    assert IsKeyCode(k);
  }

  /** The keys with usage ids 54 to 63 form row 5 of All. */
  lemma InRow5(k: Key)
    requires 54 <= k & 0xFF <= 63
    ensures k in Row5
  {
    assert IsKeyCode(k);
  }

  /** The keys with usage ids 64 to 73 form row 6 of All. */
  lemma InRow6(k: Key)
    requires 64 <= k & 0xFF <= 73
    ensures k in Row6
  {
    assert IsKeyCode(k);
  }

  /** The keys with usage ids 74 to 83 form row 7 of All. */
  lemma InRow7(k: Key)
    requires 74 <= k & 0xFF <= 83
    ensures k in Row7
  {
    assert IsKeyCode(k);
  }

  /** The keys with usage ids 84 to 93 form row 8 of All. */
  lemma InRow8(k: Key)
    requires 84 <= k & 0xFF <= 93
    ensures k in Row8
  {
    assert IsKeyCode(k);
  }

  /** The keys with usage ids 94 to 105 form row 9 of All. */
  lemma InRow9(k: Key)
    requires 94 <= k & 0xFF <= 105
    ensures k in Row9
  {
    assert IsKeyCode(k);
  }

  /** The keys with usage ids 106 to 115 form row 10 of All. */
  lemma InRow10(k: Key)
    requires 106 <= k & 0xFF <= 115
    ensures k in Row10
  {
    assert IsKeyCode(k);
  }

  /** Every key is listed in All. */
  lemma AllContains(k: Key)
    ensures k in All
  {
    assert IsKeyCode(k);
    if k & 0xFF <= 13 {
      InRow0(k);
    } else if k & 0xFF <= 23 {
      InRow1(k);
    } else if k & 0xFF <= 33 {
      InRow2(k);
    } else if k & 0xFF <= 43 {
      InRow3(k);
    } else if k & 0xFF <= 53 {
      InRow4(k);
    } else if k & 0xFF <= 63 {
      InRow5(k);
    } else if k & 0xFF <= 73 {
      InRow6(k);
    } else if k & 0xFF <= 83 {
      InRow7(k);
    } else if k & 0xFF <= 93 {
      InRow8(k);
    } else if k & 0xFF <= 105 {
      InRow9(k);
    } else {
      InRow10(k);
    }
  }

  /**
   * `Key::ALL` has 110 entries, lists every key, and is in strictly
   * ascending code order, so it lists every key exactly once.
   */
  lemma AllListsEveryKeyOnce()
    ensures |All| == 110
    ensures forall k: Key :: k in All
    ensures Ascending(All)
    ensures forall i, j :: 0 <= i < j < |All| ==> All[i] != All[j]
  {
    forall k: Key
      ensures k in All
    {
      AllContains(k);
    }
    AllAscending();
  }

  lemma RowAscending0()
    ensures Ascending(Row0)
  {
    StepsUpAscending(Row0);
  }

  lemma RowAscending1()
    ensures Ascending(Row1)
  {
    StepsUpAscending(Row1);
  }

  lemma RowAscending2()
    ensures Ascending(Row2)
  {
    StepsUpAscending(Row2);
  }

  lemma RowAscending3()
    ensures Ascending(Row3)
  {
    StepsUpAscending(Row3);
  }

  lemma RowAscending4()
    ensures Ascending(Row4)
  {
    StepsUpAscending(Row4);
  }

  lemma RowAscending5()
    ensures Ascending(Row5)
  {
    StepsUpAscending(Row5);
  }

  lemma RowAscending6()
    ensures Ascending(Row6)
  {
    StepsUpAscending(Row6);
  }

  lemma RowAscending7()
    ensures Ascending(Row7)
  {
    StepsUpAscending(Row7);
  }

  lemma RowAscending8()
    ensures Ascending(Row8)
  {
    StepsUpAscending(Row8);
  }

  lemma RowAscending9()
    ensures Ascending(Row9)
  {
    StepsUpAscending(Row9);
  }

  lemma RowAscending10()
    ensures Ascending(Row10)
  {
    StepsUpAscending(Row10);
  }

  /** All is in strictly ascending code order. */
  lemma AllAscending()
    ensures Ascending(All)
  {
    RowAscending0();
    RowAscending1();
    RowAscending2();
    RowAscending3();
    RowAscending4();
    RowAscending5();
    RowAscending6();
    RowAscending7();
    RowAscending8();
    RowAscending9();
    RowAscending10();
    AscendingAppend(Row9, Row10);
    AscendingAppend(Row8, Row9 + Row10);
    AscendingAppend(Row7, Row8 + (Row9 + Row10));
    AscendingAppend(Row6, Row7 + (Row8 + (Row9 + Row10)));
    AscendingAppend(Row5, Row6 + (Row7 + (Row8 + (Row9 + Row10))));
    AscendingAppend(Row4, Row5 + (Row6 + (Row7 + (Row8 + (Row9 + Row10)))));
    AscendingAppend(Row3, Row4 + (Row5 + (Row6 + (Row7 + (Row8 + (Row9 + Row10))))));
    AscendingAppend(Row2, Row3 + (Row4 + (Row5 + (Row6 + (Row7 + (Row8 + (Row9 + Row10)))))));
    AscendingAppend(Row1, Row2 + (Row3 + (Row4 + (Row5 + (Row6 + (Row7 + (Row8 + (Row9 + Row10))))))));
    AscendingAppend(Row0, Row1 + (Row2 + (Row3 + (Row4 + (Row5 + (Row6 + (Row7 + (Row8 + (Row9 + Row10)))))))));
  }

  /** Scans `keys` in order for the first key whose code is `code`. */
  function FindByCode(keys: seq<Key>, code: bv16): (r: Option<Key>)
    ensures r.Some? ==> r.value in keys && r.value == code
    ensures r.None? <==> code !in keys
  {
    if |keys| == 0 then None
    else if keys[0] == code then Some(keys[0])
    else FindByCode(keys[1..], code)
  }

  /**
   * `Key::from_u16` (derived by `enum_from_primitive`): the key whose code is
   * exactly `code`; None for any other word.
   */
  function KeyFromCode(code: bv16): (r: Option<Key>)
    ensures r.Some? ==> r.value == code
    ensures r.None? <==> !IsKeyCode(code)
  {
    if IsKeyCode(code) then Some(code) else None
  }

  /**
   * `Key::from_u16` agrees with trying the keys of `Key::ALL` in
   * declaration order, as the derived conversion does: a word decodes to a
   * key exactly when it is that key's code, and no default is substituted.
   */
  lemma KeyFromCodeScansAll(code: bv16, k: Key)
    ensures KeyFromCode(code) == FindByCode(All, code)
    ensures KeyFromCode(code) == Some(k) <==> k == code
  {
    if IsKeyCode(code) {
      AllContains(code);
    } else {
      assert code !in All;
    }
  }

  // ---------------------------------------------------------------------
  // Key names (`Display for Key`)

  /** `Display for Key`: the key's own variant name. */
  function KeyName(k: Key): (name: string)
    ensures |name| > 0 && 'A' <= name[0] <= 'Z'
  {
    if k & 0xFF <= 13 then RowName0(k)
    else if k & 0xFF <= 23 then RowName1(k)
    else if k & 0xFF <= 33 then RowName2(k)
    else if k & 0xFF <= 43 then RowName3(k)
    else if k & 0xFF <= 53 then RowName4(k)
    else if k & 0xFF <= 63 then RowName5(k)
    else if k & 0xFF <= 73 then RowName6(k)
    else if k & 0xFF <= 83 then RowName7(k)
    else if k & 0xFF <= 93 then RowName8(k)
    else if k & 0xFF <= 105 then RowName9(k)
    else RowName10(k)
  }

  function RowName0(k: Key): (name: string)
    ensures |name| > 0 && 'A' <= name[0] <= 'Z'
  {
    if k == A then "A"
    else if k == B then "B"
    else if k == C then "C"
    else if k == D then "D"
    else if k == E then "E"
    else if k == F then "F"
    else if k == G then "G"
    else if k == H then "H"
    else if k == I then "I"
    else "J"
  }

  function RowName1(k: Key): (name: string)
    ensures |name| > 0 && 'A' <= name[0] <= 'Z'
  {
    if k == K then "K"
    else if k == L then "L"
    else if k == M then "M"
    else if k == N then "N"
    else if k == O then "O"
    else if k == P then "P"
    else if k == Q then "Q"
    else if k == R then "R"
    else if k == S then "S"
    else "T"
  }

  function RowName2(k: Key): (name: string)
    ensures |name| > 0 && 'A' <= name[0] <= 'Z'
  {
    if k == U then "U"
    else if k == V then "V"
    else if k == W then "W"
    else if k == X then "X"
    else if k == Y then "Y"
    else if k == Z then "Z"
    else if k == Key1 then "Key1"
    else if k == Key2 then "Key2"
    else if k == Key3 then "Key3"
    else "Key4"
  }

  function RowName3(k: Key): (name: string)
    ensures |name| > 0 && 'A' <= name[0] <= 'Z'
  {
    if k == Key5 then "Key5"
    else if k == Key6 then "Key6"
    else if k == Key7 then "Key7"
    else if k == Key8 then "Key8"
    else if k == Key9 then "Key9"
    else if k == Key0 then "Key0"
    else if k == Enter then "Enter"
    else if k == Esc then "Esc"
    else if k == Backspace then "Backspace"
    else "Tab"
  }

  function RowName4(k: Key): (name: string)
    ensures |name| > 0 && 'A' <= name[0] <= 'Z'
  {
    if k == Space then "Space"
    else if k == Minus then "Minus"
    else if k == Equal then "Equal"
    else if k == LeftBrace then "LeftBrace"
    else if k == RightBrace then "RightBrace"
    else if k == Backslash then "Backslash"
    else if k == NonUsNum then "NonUsNum"
    else if k == Semicolon then "Semicolon"
    else if k == Guote then "Guote"
    else "Tilde"
  }

  function RowName5(k: Key): (name: string)
    ensures |name| > 0 && 'A' <= name[0] <= 'Z'
  {
    if k == Comma then "Comma"
    else if k == Period then "Period"
    else if k == Slash then "Slash"
    else if k == CapsLock then "CapsLock"
    else if k == F1 then "F1"
    else if k == F2 then "F2"
    else if k == F3 then "F3"
    else if k == F4 then "F4"
    else if k == F5 then "F5"
    else "F6"
  }

  function RowName6(k: Key): (name: string)
    ensures |name| > 0 && 'A' <= name[0] <= 'Z'
  {
    if k == F7 then "F7"
    else if k == F8 then "F8"
    else if k == F9 then "F9"
    else if k == F10 then "F10"
    else if k == F11 then "F11"
    else if k == F12 then "F12"
    else if k == PrintScreen then "PrintScreen"
    else if k == ScrollLock then "ScrollLock"
    else if k == Pause then "Pause"
    else "Insert"
  }

  function RowName7(k: Key): (name: string)
    ensures |name| > 0 && 'A' <= name[0] <= 'Z'
  {
    if k == Home then "Home"
    else if k == PageUp then "PageUp"
    else if k == Delete then "Delete"
    else if k == End then "End"
    else if k == PageDown then "PageDown"
    else if k == Right then "Right"
    else if k == Left then "Left"
    else if k == Down then "Down"
    else if k == Up then "Up"
    else "NumLock"
  }

  function RowName8(k: Key): (name: string)
    ensures |name| > 0 && 'A' <= name[0] <= 'Z'
  {
    if k == KeyPadSlash then "KeyPadSlash"
    else if k == KeyPadAsterix then "KeyPadAsterix"
    else if k == KeyPadMinus then "KeyPadMinus"
    else if k == KeyPadPlus then "KeyPadPlus"
    else if k == KeyPadEnter then "KeyPadEnter"
    else if k == KeyPad1 then "KeyPad1"
    else if k == KeyPad2 then "KeyPad2"
    else if k == KeyPad3 then "KeyPad3"
    else if k == KeyPad4 then "KeyPad4"
    else "KeyPad5"
  }

  function RowName9(k: Key): (name: string)
    ensures |name| > 0 && 'A' <= name[0] <= 'Z'
  {
    if k == KeyPad6 then "KeyPad6"
    else if k == KeyPad7 then "KeyPad7"
    else if k == KeyPad8 then "KeyPad8"
    else if k == KeyPad9 then "KeyPad9"
    else if k == KeyPad0 then "KeyPad0"
    else if k == KeyPadPeriod then "KeyPadPeriod"
    else if k == NonUsBs then "NonUsBs"
    else if k == Menu then "Menu"
    else if k == F13 then "F13"
    else "F14"
  }

  function RowName10(k: Key): (name: string)
    ensures |name| > 0 && 'A' <= name[0] <= 'Z'
  {
    if k == F15 then "F15"
    else if k == F16 then "F16"
    else if k == F17 then "F17"
    else if k == F18 then "F18"
    else if k == F19 then "F19"
    else if k == F20 then "F20"
    else if k == F21 then "F21"
    else if k == F22 then "F22"
    else if k == F23 then "F23"
    else "F24"
  }

  predicate IsNameChar(c: char) {
    'A' <= c <= 'Z' || 'a' <= c <= 'z' || '0' <= c <= '9'
  }

  /** A non-empty word of letters and digits. */
  predicate IsName(s: string) {
    |s| > 0 && forall i :: 0 <= i < |s| ==> IsNameChar(s[i])
  }

  lemma NamesInRow0(k: Key)
    requires 4 <= k & 0xFF <= 13
    ensures IsName(KeyName(k))
  {
    assert IsKeyCode(k);
    if k == A {
      assert KeyName(A) == "A";
    } else if k == B {
      assert KeyName(B) == "B";
    } else if k == C {
      assert KeyName(C) == "C";
    } else if k == D {
      assert KeyName(D) == "D";
    } else if k == E {
      assert KeyName(E) == "E";
    } else if k == F {
      assert KeyName(F) == "F";
    } else if k == G {
      assert KeyName(G) == "G";
    } else if k == H {
      assert KeyName(H) == "H";
    } else if k == I {
      assert KeyName(I) == "I";
    } else {
      assert k == J;
      assert KeyName(J) == "J";
    }
  }

  lemma NamesInRow1(k: Key)
    requires 14 <= k & 0xFF <= 23
    ensures IsName(KeyName(k))
  {
    assert IsKeyCode(k);
    if k == K {
      assert KeyName(K) == "K";
    } else if k == L {
      assert KeyName(L) == "L";
    } else if k == M {
      assert KeyName(M) == "M";
    } else if k == N {
      assert KeyName(N) == "N";
    } else if k == O {
      assert KeyName(O) == "O";
    } else if k == P {
      assert KeyName(P) == "P";
    } else if k == Q {
      assert KeyName(Q) == "Q";
    } else if k == R {
      assert KeyName(R) == "R";
    } else if k == S {
      assert KeyName(S) == "S";
    } else {
      assert k == T;
      assert KeyName(T) == "T";
    }
  }

  lemma NamesInRow2(k: Key)
    requires 24 <= k & 0xFF <= 33
    ensures IsName(KeyName(k))
  {
    assert IsKeyCode(k);
    if k == U {
      assert KeyName(U) == "U";
    } else if k == V {
      assert KeyName(V) == "V";
    } else if k == W {
      assert KeyName(W) == "W";
    } else if k == X {
      assert KeyName(X) == "X";
    } else if k == Y {
      assert KeyName(Y) == "Y";
    } else if k == Z {
      assert KeyName(Z) == "Z";
    } else if k == Key1 {
      assert KeyName(Key1) == "Key1";
    } else if k == Key2 {
      assert KeyName(Key2) == "Key2";
    } else if k == Key3 {
      assert KeyName(Key3) == "Key3";
    } else {
      assert k == Key4;
      assert KeyName(Key4) == "Key4";
    }
  }

  lemma NamesInRow3(k: Key)
    requires 34 <= k & 0xFF <= 43
    ensures IsName(KeyName(k))
  {
    assert IsKeyCode(k);
    if k == Key5 {
      assert KeyName(Key5) == "Key5";
    } else if k == Key6 {
      assert KeyName(Key6) == "Key6";
    } else if k == Key7 {
      assert KeyName(Key7) == "Key7";
    } else if k == Key8 {
      assert KeyName(Key8) == "Key8";
    } else if k == Key9 {
      assert KeyName(Key9) == "Key9";
    } else if k == Key0 {
      assert KeyName(Key0) == "Key0";
    } else if k == Enter {
      assert KeyName(Enter) == "Enter";
    } else if k == Esc {
      assert KeyName(Esc) == "Esc";
    } else if k == Backspace {
      assert KeyName(Backspace) == "Backspace";
    } else {
      assert k == Tab;
      assert KeyName(Tab) == "Tab";
    }
  }

  lemma NamesInRow4(k: Key)
    requires 44 <= k & 0xFF <= 53
    ensures IsName(KeyName(k))
  {
    assert IsKeyCode(k);
    if k == Space {
      assert KeyName(Space) == "Space";
    } else if k == Minus {
      assert KeyName(Minus) == "Minus";
    } else if k == Equal {
      assert KeyName(Equal) == "Equal";
    } else if k == LeftBrace {
      assert KeyName(LeftBrace) == "LeftBrace";
    } else if k == RightBrace {
      assert KeyName(RightBrace) == "RightBrace";
    } else if k == Backslash {
      assert KeyName(Backslash) == "Backslash";
    } else if k == NonUsNum {
      assert KeyName(NonUsNum) == "NonUsNum";
    } else if k == Semicolon {
      assert KeyName(Semicolon) == "Semicolon";
    } else if k == Guote {
      assert KeyName(Guote) == "Guote";
    } else {
      assert k == Tilde;
      assert KeyName(Tilde) == "Tilde";
    }
  }

  lemma NamesInRow5(k: Key)
    requires 54 <= k & 0xFF <= 63
    ensures IsName(KeyName(k))
  {
    assert IsKeyCode(k);
    if k == Comma {
      assert KeyName(Comma) == "Comma";
    } else if k == Period {
      assert KeyName(Period) == "Period";
    } else if k == Slash {
      assert KeyName(Slash) == "Slash";
    } else if k == CapsLock {
      assert KeyName(CapsLock) == "CapsLock";
    } else if k == F1 {
      assert KeyName(F1) == "F1";
    } else if k == F2 {
      assert KeyName(F2) == "F2";
    } else if k == F3 {
      assert KeyName(F3) == "F3";
    } else if k == F4 {
      assert KeyName(F4) == "F4";
    } else if k == F5 {
      assert KeyName(F5) == "F5";
    } else {
      assert k == F6;
      assert KeyName(F6) == "F6";
    }
  }

  lemma NamesInRow6(k: Key)
    requires 64 <= k & 0xFF <= 73
    ensures IsName(KeyName(k))
  {
    assert IsKeyCode(k);
    if k == F7 {
      assert KeyName(F7) == "F7";
    } else if k == F8 {
      assert KeyName(F8) == "F8";
    } else if k == F9 {
      assert KeyName(F9) == "F9";
    } else if k == F10 {
      assert KeyName(F10) == "F10";
    } else if k == F11 {
      assert KeyName(F11) == "F11";
    } else if k == F12 {
      assert KeyName(F12) == "F12";
    } else if k == PrintScreen {
      assert KeyName(PrintScreen) == "PrintScreen";
    } else if k == ScrollLock {
      assert KeyName(ScrollLock) == "ScrollLock";
    } else if k == Pause {
      assert KeyName(Pause) == "Pause";
    } else {
      assert k == Insert;
      assert KeyName(Insert) == "Insert";
    }
  }

  lemma NamesInRow7(k: Key)
    requires 74 <= k & 0xFF <= 83
    ensures IsName(KeyName(k))
  {
    assert IsKeyCode(k);
    if k == Home {
      assert KeyName(Home) == "Home";
    } else if k == PageUp {
      assert KeyName(PageUp) == "PageUp";
    } else if k == Delete {
      assert KeyName(Delete) == "Delete";
    } else if k == End {
      assert KeyName(End) == "End";
    } else if k == PageDown {
      assert KeyName(PageDown) == "PageDown";
    } else if k == Right {
      assert KeyName(Right) == "Right";
    } else if k == Left {
      assert KeyName(Left) == "Left";
    } else if k == Down {
      assert KeyName(Down) == "Down";
    } else if k == Up {
      assert KeyName(Up) == "Up";
    } else {
      assert k == NumLock;
      assert KeyName(NumLock) == "NumLock";
    }
  }

  lemma NamesInRow8(k: Key)
    requires 84 <= k & 0xFF <= 93
    ensures IsName(KeyName(k))
  {
    assert IsKeyCode(k);
    if k == KeyPadSlash {
      assert KeyName(KeyPadSlash) == "KeyPadSlash";
    } else if k == KeyPadAsterix {
      assert KeyName(KeyPadAsterix) == "KeyPadAsterix";
    } else if k == KeyPadMinus {
      assert KeyName(KeyPadMinus) == "KeyPadMinus";
    } else if k == KeyPadPlus {
      assert KeyName(KeyPadPlus) == "KeyPadPlus";
    } else if k == KeyPadEnter {
      assert KeyName(KeyPadEnter) == "KeyPadEnter";
    } else if k == KeyPad1 {
      assert KeyName(KeyPad1) == "KeyPad1";
    } else if k == KeyPad2 {
      assert KeyName(KeyPad2) == "KeyPad2";
    } else if k == KeyPad3 {
      assert KeyName(KeyPad3) == "KeyPad3";
    } else if k == KeyPad4 {
      assert KeyName(KeyPad4) == "KeyPad4";
    } else {
      assert k == KeyPad5;
      assert KeyName(KeyPad5) == "KeyPad5";
    }
  }

  lemma NamesInRow9(k: Key)
    requires 94 <= k & 0xFF <= 105
    ensures IsName(KeyName(k))
  {
    assert IsKeyCode(k);
    if k == KeyPad6 {
      assert KeyName(KeyPad6) == "KeyPad6";
    } else if k == KeyPad7 {
      assert KeyName(KeyPad7) == "KeyPad7";
    } else if k == KeyPad8 {
      assert KeyName(KeyPad8) == "KeyPad8";
    } else if k == KeyPad9 {
      assert KeyName(KeyPad9) == "KeyPad9";
    } else if k == KeyPad0 {
      assert KeyName(KeyPad0) == "KeyPad0";
    } else if k == KeyPadPeriod {
      assert KeyName(KeyPadPeriod) == "KeyPadPeriod";
    } else if k == NonUsBs {
      assert KeyName(NonUsBs) == "NonUsBs";
    } else if k == Menu {
      assert KeyName(Menu) == "Menu";
    } else if k == F13 {
      assert KeyName(F13) == "F13";
    } else {
      assert k == F14;
      assert KeyName(F14) == "F14";
    }
  }

  lemma NamesInRow10(k: Key)
    requires 106 <= k & 0xFF <= 115
    ensures IsName(KeyName(k))
  {
    assert IsKeyCode(k);
    if k == F15 {
      assert KeyName(F15) == "F15";
    } else if k == F16 {
      assert KeyName(F16) == "F16";
    } else if k == F17 {
      assert KeyName(F17) == "F17";
    } else if k == F18 {
      assert KeyName(F18) == "F18";
    } else if k == F19 {
      assert KeyName(F19) == "F19";
    } else if k == F20 {
      assert KeyName(F20) == "F20";
    } else if k == F21 {
      assert KeyName(F21) == "F21";
    } else if k == F22 {
      assert KeyName(F22) == "F22";
    } else if k == F23 {
      assert KeyName(F23) == "F23";
    } else {
      assert k == F24;
      assert KeyName(F24) == "F24";
    }
  }

  /** Key names are non-empty and made of letters and digits only. */
  lemma KeyNameAlphanumeric(k: Key)
    ensures IsName(KeyName(k))
  {
    assert IsKeyCode(k);
    if k & 0xFF <= 13 {
      NamesInRow0(k);
    } else if k & 0xFF <= 23 {
      NamesInRow1(k);
    } else if k & 0xFF <= 33 {
      NamesInRow2(k);
    } else if k & 0xFF <= 43 {
      NamesInRow3(k);
    } else if k & 0xFF <= 53 {
      NamesInRow4(k);
    } else if k & 0xFF <= 63 {
      NamesInRow5(k);
    } else if k & 0xFF <= 73 {
      NamesInRow6(k);
    } else if k & 0xFF <= 83 {
      NamesInRow7(k);
    } else if k & 0xFF <= 93 {
      NamesInRow8(k);
    } else if k & 0xFF <= 105 {
      NamesInRow9(k);
    } else {
      NamesInRow10(k);
    }
  }

  // ---------------------------------------------------------------------
  // Key presses, the builder and combos

  /** One held key plus the four left-hand modifiers the keypad exposes. */
  datatype KeyPress = KeyPress(ctrl: bool, alt: bool, shift: bool, windows: bool, key: Key)

  /** What one keypad button sends: one press, optionally followed by a second. */
  datatype KeyCombo = KeyCombo(one: KeyPress, two: Option<KeyPress>)

  /** The modifier flags collected before `.key(k)` finishes a press. */
  datatype KeyPressBuilder = KeyPressBuilder(ctrl: bool, alt: bool, shift: bool, windows: bool)

  /** `KeyPress::key`: a press of `k` with no modifier held. */
  function PlainPress(k: Key): (p: KeyPress)
    ensures p.key == k && !p.ctrl && !p.alt && !p.shift && !p.windows
  {
    KeyPress(false, false, false, false, k)
  }

  /** `KeyPressBuilder::default()`: no flag set. */
  const EmptyBuilder := KeyPressBuilder(false, false, false, false)

  /** `KeyPressBuilder::ctrl`: sets the Ctrl flag, leaves the others as they are. */
  function WithCtrl(b: KeyPressBuilder): (r: KeyPressBuilder)
    ensures r.ctrl && r.(ctrl := b.ctrl) == b
  {
    b.(ctrl := true)
  }

  /** `KeyPressBuilder::alt`: sets the Alt flag, leaves the others as they are. */
  function WithAlt(b: KeyPressBuilder): (r: KeyPressBuilder)
    ensures r.alt && r.(alt := b.alt) == b
  {
    b.(alt := true)
  }

  /** `KeyPressBuilder::shift`: sets the Shift flag, leaves the others as they are. */
  function WithShift(b: KeyPressBuilder): (r: KeyPressBuilder)
    ensures r.shift && r.(shift := b.shift) == b
  {
    b.(shift := true)
  }

  /** `KeyPressBuilder::windows`: sets the Windows flag, leaves the others as they are. */
  function WithWindows(b: KeyPressBuilder): (r: KeyPressBuilder)
    ensures r.windows && r.(windows := b.windows) == b
  {
    b.(windows := true)
  }

  /** `KeyPress::ctrl()`: a builder with only Ctrl set. */
  function CtrlBuilder(): (b: KeyPressBuilder)
    ensures b == WithCtrl(EmptyBuilder) && b.ctrl && !b.alt && !b.shift && !b.windows
  {
    KeyPressBuilder(true, false, false, false)
  }

  /** `KeyPress::alt()`: a builder with only Alt set. */
  function AltBuilder(): (b: KeyPressBuilder)
    ensures b == WithAlt(EmptyBuilder) && !b.ctrl && b.alt && !b.shift && !b.windows
  {
    KeyPressBuilder(false, true, false, false)
  }

  /** `KeyPress::shift()`: a builder with only Shift set. */
  function ShiftBuilder(): (b: KeyPressBuilder)
    ensures b == WithShift(EmptyBuilder) && !b.ctrl && !b.alt && b.shift && !b.windows
  {
    KeyPressBuilder(false, false, true, false)
  }

  /** `KeyPress::windows()`: a builder with only Windows set. */
  function WindowsBuilder(): (b: KeyPressBuilder)
    ensures b == WithWindows(EmptyBuilder) && !b.ctrl && !b.alt && !b.shift && b.windows
  {
    KeyPressBuilder(false, false, false, true)
  }

  /** `KeyPressBuilder::key`: the press of `k` with exactly the builder's flags. */
  function BuildPress(b: KeyPressBuilder, k: Key): (p: KeyPress)
    ensures p.key == k
    ensures p.ctrl == b.ctrl && p.alt == b.alt && p.shift == b.shift && p.windows == b.windows
  {
    KeyPress(b.ctrl, b.alt, b.shift, b.windows, k)
  }

  /**
   * Finishing an untouched builder gives the plain press; any two setters
   * commute, and each setter is idempotent.
   */
  lemma BuilderLaws(b: KeyPressBuilder, k: Key)
    ensures BuildPress(EmptyBuilder, k) == PlainPress(k)
    ensures WithCtrl(WithAlt(b)) == WithAlt(WithCtrl(b))
    ensures WithCtrl(WithShift(b)) == WithShift(WithCtrl(b))
    ensures WithCtrl(WithWindows(b)) == WithWindows(WithCtrl(b))
    ensures WithAlt(WithShift(b)) == WithShift(WithAlt(b))
    ensures WithAlt(WithWindows(b)) == WithWindows(WithAlt(b))
    ensures WithShift(WithWindows(b)) == WithWindows(WithShift(b))
    ensures WithCtrl(WithCtrl(b)) == WithCtrl(b)
    ensures WithAlt(WithAlt(b)) == WithAlt(b)
    ensures WithShift(WithShift(b)) == WithShift(b)
    ensures WithWindows(WithWindows(b)) == WithWindows(b)
  {
  }

  /** `KeyCombo::default()`: a single unmodified press of A. */
  function DefaultCombo(): (c: KeyCombo)
    ensures c.one == PlainPress(A) && c.two == None
  {
    KeyCombo(PlainPress(A), None)
  }

  // ---------------------------------------------------------------------
  // Renderings (`Display for KeyPress` and `Display for KeyCombo`)

  const CtrlToken: string := "Ctrl + "
  const AltToken: string := "Alt + "
  const ShiftToken: string := "Shift + "
  const WinToken: string := "Win + "

  function TokenIf(b: bool, token: string): string {
    if b then token else ""
  }

  /**
   * A press rendering: a token for each flag the builder holds, in the
   * fixed order Ctrl, Alt, Shift, Win, then the key name. AfterAlt,
   * AfterShift and AfterWin are what follows the Ctrl, Alt and Shift
   * tokens.
   */
  function Rendering(b: KeyPressBuilder, name: string): string {
    TokenIf(b.ctrl, CtrlToken) + AfterAlt(b, name)
  }

  function AfterAlt(b: KeyPressBuilder, name: string): string {
    TokenIf(b.alt, AltToken) + AfterShift(b, name)
  }

  function AfterShift(b: KeyPressBuilder, name: string): string {
    TokenIf(b.shift, ShiftToken) + AfterWin(b, name)
  }

  function AfterWin(b: KeyPressBuilder, name: string): string {
    TokenIf(b.windows, WinToken) + name
  }

  /** The flags of a press, as a builder holds them. */
  function Flags(p: KeyPress): (b: KeyPressBuilder)
    ensures BuildPress(b, p.key) == p
  {
    KeyPressBuilder(p.ctrl, p.alt, p.shift, p.windows)
  }

  /** `Display for KeyPress`: the held modifiers, then the key's name. */
  function PressDisplay(p: KeyPress): (s: string)
    ensures |KeyName(p.key)| <= |s| && s[|s| - |KeyName(p.key)|..] == KeyName(p.key)
    ensures !p.ctrl && !p.alt && !p.shift && !p.windows ==> s == KeyName(p.key)
  {
    Rendering(Flags(p), KeyName(p.key))
  }

  /** Removes `token` from the front of `s` when it is there, and says whether it was. */
  function StripToken(s: string, token: string): (r: (bool, string))
    ensures r.0 ==> s == token + r.1
    ensures !r.0 ==> r.1 == s
  {
    if |token| <= |s| && s[..|token|] == token then (true, s[|token|..]) else (false, s)
  }

  /** Reads a press rendering back: the modifier flags it shows, and what remains (the key name). */
  function ParsePressDisplay(s: string): (KeyPressBuilder, string) {
    var (ctrl, s1) := StripToken(s, CtrlToken);
    var (alt, s2) := StripToken(s1, AltToken);
    var (shift, s3) := StripToken(s2, ShiftToken);
    var (windows, s4) := StripToken(s3, WinToken);
    (KeyPressBuilder(ctrl, alt, shift, windows), s4)
  }

  /** A string that starts with a letter or digit and has no space does not start with any modifier token. */
  lemma NoTokenAtName(s: string, token: string)
    requires token in {CtrlToken, AltToken, ShiftToken, WinToken}
    requires IsName(s)
    ensures StripToken(s, token) == (false, s)
  {
    if |token| <= |s| {
      assert s[..|token|][|token| - 2] == s[|token| - 2];
      assert token[|token| - 2] == '+';
    }
  }

  /** A token followed by anything starts with that token and no other. */
  lemma StripAfterToken(token: string, other: string, rest: string)
    requires token in {CtrlToken, AltToken, ShiftToken, WinToken}
    requires other in {CtrlToken, AltToken, ShiftToken, WinToken}
    ensures StripToken(token + rest, token) == (true, rest)
    ensures other != token ==> StripToken(token + rest, other) == (false, token + rest)
  {
    var s := token + rest;
    assert s[..|token|] == token;
    assert s[|token|..] == rest;
    if other != token && |other| <= |s| {
      // The four tokens start with the distinct letters C, A, S and W.
      assert s[..|other|][0] == token[0] != other[0];
    }
  }

  /** Stripping a token from an optional copy of it followed by a rest that does not start with it. */
  lemma StripStep(b: bool, token: string, rest: string)
    requires token in {CtrlToken, AltToken, ShiftToken, WinToken}
    requires StripToken(rest, token) == (false, rest)
    ensures StripToken(TokenIf(b, token) + rest, token) == (b, rest)
  {
    if b {
      StripAfterToken(token, token, rest);
    } else {
      assert TokenIf(b, token) + rest == rest;
    }
  }

  lemma StripWin(b: KeyPressBuilder, name: string)
    requires IsName(name)
    ensures StripToken(AfterWin(b, name), WinToken) == (b.windows, name)
  {
    NoTokenAtName(name, WinToken);
    StripStep(b.windows, WinToken, name);
  }

  lemma StripShift(b: KeyPressBuilder, name: string)
    requires IsName(name)
    ensures StripToken(AfterShift(b, name), ShiftToken) == (b.shift, AfterWin(b, name))
  {
    if b.windows {
      StripAfterToken(WinToken, ShiftToken, name);
    } else {
      NoTokenAtName(name, ShiftToken);
    }
    StripStep(b.shift, ShiftToken, AfterWin(b, name));
  }

  lemma StripAlt(b: KeyPressBuilder, name: string)
    requires IsName(name)
    ensures StripToken(AfterAlt(b, name), AltToken) == (b.alt, AfterShift(b, name))
  {
    if b.shift {
      StripAfterToken(ShiftToken, AltToken, AfterWin(b, name));
    } else if b.windows {
      StripAfterToken(WinToken, AltToken, name);
    } else {
      NoTokenAtName(name, AltToken);
    }
    StripStep(b.alt, AltToken, AfterShift(b, name));
  }

  lemma StripCtrl(b: KeyPressBuilder, name: string)
    requires IsName(name)
    ensures StripToken(Rendering(b, name), CtrlToken) == (b.ctrl, AfterAlt(b, name))
  {
    if b.alt {
      StripAfterToken(AltToken, CtrlToken, AfterShift(b, name));
    } else if b.shift {
      StripAfterToken(ShiftToken, CtrlToken, AfterWin(b, name));
    } else if b.windows {
      StripAfterToken(WinToken, CtrlToken, name);
    } else {
      NoTokenAtName(name, CtrlToken);
    }
    StripStep(b.ctrl, CtrlToken, AfterAlt(b, name));
  }

  /** Reading back the rendering of `b` and a name recovers `b` and the name. */
  lemma RenderingParses(b: KeyPressBuilder, name: string)
    requires IsName(name)
    ensures ParsePressDisplay(Rendering(b, name)) == (b, name)
  {
    StripCtrl(b, name);
    StripAlt(b, name);
    StripShift(b, name);
    StripWin(b, name);
  }

  /** Reading a press rendering back recovers the flags and the key name. */
  lemma PressDisplayParses(p: KeyPress)
    ensures ParsePressDisplay(PressDisplay(p)) == (Flags(p), KeyName(p.key))
  {
    KeyNameAlphanumeric(p.key);
    RenderingParses(Flags(p), KeyName(p.key));
  }

  /** Two presses hold the same modifiers and keys of the same name. */
  predicate ShowSame(p: KeyPress, q: KeyPress) {
    p.ctrl == q.ctrl && p.alt == q.alt && p.shift == q.shift && p.windows == q.windows
    && KeyName(p.key) == KeyName(q.key)
  }

  /** Two presses render alike exactly when they hold the same modifiers and keys of the same name. */
  lemma PressDisplaySame(p: KeyPress, q: KeyPress)
    ensures PressDisplay(p) == PressDisplay(q) <==> ShowSame(p, q)
  {
    if PressDisplay(p) == PressDisplay(q) {
      PressDisplayParses(p);
      PressDisplayParses(q);
    }
  }

  predicate NoComma(s: string) {
    forall i :: 0 <= i < |s| ==> s[i] != ','
  }

  lemma NoCommaAppend(a: string, b: string)
    requires NoComma(a) && NoComma(b)
    ensures NoComma(a + b)
  {
    forall i | 0 <= i < |a + b|
      ensures (a + b)[i] != ','
    {
      if i < |a| {
        assert (a + b)[i] == a[i];
      } else {
        assert (a + b)[i] == b[i - |a|];
      }
    }
  }

  /** A rendering of a name contains no comma. */
  lemma RenderingHasNoComma(b: KeyPressBuilder, name: string)
    requires IsName(name)
    ensures NoComma(Rendering(b, name))
  {
    assert NoComma(name);
    assert NoComma(TokenIf(b.ctrl, CtrlToken)) && NoComma(TokenIf(b.alt, AltToken));
    assert NoComma(TokenIf(b.shift, ShiftToken)) && NoComma(TokenIf(b.windows, WinToken));
    NoCommaAppend(TokenIf(b.windows, WinToken), name);
    NoCommaAppend(TokenIf(b.shift, ShiftToken), AfterWin(b, name));
    NoCommaAppend(TokenIf(b.alt, AltToken), AfterShift(b, name));
    NoCommaAppend(TokenIf(b.ctrl, CtrlToken), AfterAlt(b, name));
  }

  /** A press rendering never contains a comma. */
  lemma PressDisplayHasNoComma(p: KeyPress)
    ensures NoComma(PressDisplay(p))
  {
    KeyNameAlphanumeric(p.key);
    RenderingHasNoComma(Flags(p), KeyName(p.key));
  }

  /** Joins a first rendering and an optional second one with ", ". */
  function JoinRenderings(first: string, second: Option<string>): string {
    first + (if second.Some? then ", " + second.value else "")
  }

  /** `Display for KeyCombo`: the first press, then ", " and the second press only when there is one. */
  function ComboDisplay(c: KeyCombo): (s: string)
    ensures |PressDisplay(c.one)| <= |s| && s[..|PressDisplay(c.one)|] == PressDisplay(c.one)
    ensures c.two.None? <==> |s| == |PressDisplay(c.one)|
  {
    JoinRenderings(PressDisplay(c.one), if c.two.Some? then Some(PressDisplay(c.two.value)) else None)
  }

  /** The position of the first ", " in `s`, or |s| when there is none. */
  function SeparatorIndex(s: string): (n: nat)
    ensures n <= |s|
    ensures n < |s| ==> n + 2 <= |s| && s[n] == ',' && s[n + 1] == ' '
  {
    if |s| < 2 then |s|
    else if s[0] == ',' && s[1] == ' ' then 0
    else var n := SeparatorIndex(s[1..]); if n == |s| - 1 then |s| else n + 1
  }

  /** A combo rendering split at its first ", ": the first press, and the second if present. */
  function SplitComboDisplay(s: string): (string, Option<string>) {
    var n := SeparatorIndex(s);
    if n < |s| then (s[..n], Some(s[n + 2..])) else (s, None)
  }

  lemma {:induction false} SeparatorAfterPrefix(a: string, b: string)
    requires NoComma(a)
    ensures SeparatorIndex(a + ", " + b) == |a|
  {
    if |a| > 0 {
      assert (a + ", " + b)[1..] == a[1..] + ", " + b;
      SeparatorAfterPrefix(a[1..], b);
    }
  }

  lemma {:induction false} NoSeparator(s: string)
    requires NoComma(s)
    ensures SeparatorIndex(s) == |s|
  {
    if |s| >= 2 {
      NoSeparator(s[1..]);
    }
  }

  /** A comma-free first rendering is recovered, with the second, by splitting at the first ", ". */
  lemma SplitJoined(first: string, second: Option<string>)
    requires NoComma(first)
    ensures SplitComboDisplay(JoinRenderings(first, second)) == (first, second)
  {
    var s := JoinRenderings(first, second);
    if second.Some? {
      SeparatorAfterPrefix(first, second.value);
      assert s == first + ", " + second.value;
      assert s[..|first|] == first;
      assert s[|first| + 2..] == second.value;
    } else {
      assert s == first;
      NoSeparator(first);
    }
  }

  /** Splitting a combo rendering at its first ", " gives back the renderings of its presses. */
  lemma ComboDisplayParses(c: KeyCombo)
    ensures SplitComboDisplay(ComboDisplay(c))
         == (PressDisplay(c.one), if c.two.Some? then Some(PressDisplay(c.two.value)) else None)
  {
    PressDisplayHasNoComma(c.one);
    var second := if c.two.Some? then Some(PressDisplay(c.two.value)) else None;
    SplitJoined(PressDisplay(c.one), second);
  }

  /**
   * Two combos render alike exactly when their first presses render alike
   * and both have, or both lack, a second press that renders alike.
   */
  lemma ComboDisplaySame(c1: KeyCombo, c2: KeyCombo)
    ensures ComboDisplay(c1) == ComboDisplay(c2)
        <==> ShowSame(c1.one, c2.one) && c1.two.Some? == c2.two.Some?
             && (c1.two.Some? ==> ShowSame(c1.two.value, c2.two.value))
  {
    PressDisplaySame(c1.one, c2.one);
    if c1.two.Some? && c2.two.Some? {
      PressDisplaySame(c1.two.value, c2.two.value);
    }
    if ComboDisplay(c1) == ComboDisplay(c2) {
      ComboDisplayParses(c1);
      ComboDisplayParses(c2);
    }
  }
}
