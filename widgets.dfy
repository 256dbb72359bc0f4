/** The pure parts of the widget helpers in src/theme/widgets.rs: the name shown for a key, and
    the label of a button with an optional keyboard shortcut. */
module Widgets {
  import Components
  import opened Input

  /** `key_to_string`: the short name of a key; every key without a name of its own is "???". */
  function KeyToString(key: KeyCode): (s: string)
    ensures |s| > 0
    ensures key.Other? <==> s == "???"
  {
    match key
    case Digit1 => "1"
    case Digit2 => "2"
    case Digit3 => "3"
    case Digit4 => "4"
    case Digit5 => "5"
    case Digit6 => "6"
    case Digit7 => "7"
    case Digit8 => "8"
    case Digit9 => "9"
    case Digit0 => "0"
    case KeyA => "A"
    case KeyB => "B"
    case KeyC => "C"
    case KeyD => "D"
    case KeyE => "E"
    case KeyF => "F"
    case KeyG => "G"
    case KeyH => "H"
    case KeyI => "I"
    case KeyJ => "J"
    case KeyK => "K"
    case KeyL => "L"
    case KeyM => "M"
    case KeyN => "N"
    case KeyO => "O"
    case KeyP => "P"
    case KeyQ => "Q"
    case KeyR => "R"
    case KeyS => "S"
    case KeyT => "T"
    case KeyU => "U"
    case KeyV => "V"
    case KeyW => "W"
    case KeyX => "X"
    case KeyY => "Y"
    case KeyZ => "Z"
    case Escape => "Esc"
    case F1 => "F1"
    case F2 => "F2"
    case F3 => "F3"
    case F4 => "F4"
    case F5 => "F5"
    case F6 => "F6"
    case F7 => "F7"
    case F8 => "F8"
    case F9 => "F9"
    case F10 => "F10"
    case F11 => "F11"
    case F12 => "F12"
    case Insert => "Ins"
    case Delete => "Del"
    case Home => "Home"
    case End => "End"
    case PageUp => "PgUp"
    case PageDown => "PgDn"
    case ArrowUp => "\U{2191}"
    case ArrowDown => "\U{2193}"
    case ArrowLeft => "\U{2190}"
    case ArrowRight => "\U{2192}"
    case Space => "Space"
    case Backspace => "Backspace"
    case Enter => "Enter"
    case Tab => "Tab"
    case CapsLock => "Caps"
    case ShiftLeft | ShiftRight => "Shift"
    case ControlLeft | ControlRight => "Ctrl"
    case AltLeft | AltRight => "Alt"
    case ContextMenu => "Menu"
    case _ => "???"
  }

  /** The digit keys, by their digit. */
  function DigitKey(d: nat): (k: KeyCode)
    requires d < 10
  {
    match d
    case 0 => Digit0 case 1 => Digit1 case 2 => Digit2 case 3 => Digit3 case 4 => Digit4
    case 5 => Digit5 case 6 => Digit6 case 7 => Digit7 case 8 => Digit8 case _ => Digit9
  }

  /** The letter keys, by their position in the alphabet. */
  function LetterKey(i: nat): (k: KeyCode)
    requires i < 26
  {
    match i
    case 0 => KeyA case 1 => KeyB case 2 => KeyC case 3 => KeyD case 4 => KeyE case 5 => KeyF
    case 6 => KeyG case 7 => KeyH case 8 => KeyI case 9 => KeyJ case 10 => KeyK case 11 => KeyL
    case 12 => KeyM case 13 => KeyN case 14 => KeyO case 15 => KeyP case 16 => KeyQ
    case 17 => KeyR case 18 => KeyS case 19 => KeyT case 20 => KeyU case 21 => KeyV
    case 22 => KeyW case 23 => KeyX case 24 => KeyY case _ => KeyZ
  }

  /** Each digit key is shown as its digit. */
  lemma DigitKeysShowTheirDigit(d: nat)
    requires d < 10
    ensures KeyToString(DigitKey(d)) == [('0' as int + d) as char]
  {
  }

  /** Each letter key is shown as its upper-case letter. */
  lemma LetterKeysShowTheirLetter(i: nat)
    requires i < 26
    ensures KeyToString(LetterKey(i)) == [('A' as int + i) as char]
  {
  }

  /** The two keys of one modifier. */
  predicate SameModifier(a: KeyCode, b: KeyCode) {
    || (a == ShiftLeft && b == ShiftRight) || (a == ShiftRight && b == ShiftLeft)
    || (a == ControlLeft && b == ControlRight) || (a == ControlRight && b == ControlLeft)
    || (a == AltLeft && b == AltRight) || (a == AltRight && b == AltLeft)
  }

  /** Both Shift keys are shown as "Shift". */
  lemma ShiftKeysShowShift(k: KeyCode)
    requires k.ShiftLeft? || k.ShiftRight?
    ensures KeyToString(k) == "Shift"
  {
  }

  /** Both Control keys are shown as "Ctrl". */
  lemma ControlKeysShowCtrl(k: KeyCode)
    requires k.ControlLeft? || k.ControlRight?
    ensures KeyToString(k) == "Ctrl"
  {
  }

  /** Both Alt keys are shown as "Alt". */
  lemma AltKeysShowAlt(k: KeyCode)
    requires k.AltLeft? || k.AltRight?
    ensures KeyToString(k) == "Alt"
  {
  }

  /** The left and right keys of a modifier share one name. */
  lemma ModifiersCollapse(a: KeyCode, b: KeyCode)
    requires SameModifier(a, b)
    ensures KeyToString(a) == KeyToString(b)
    ensures KeyToString(a) == "Shift" || KeyToString(a) == "Ctrl" || KeyToString(a) == "Alt"
  {
    if a.ShiftLeft? || a.ShiftRight? {
      ShiftKeysShowShift(a);
      ShiftKeysShowShift(b);
    } else if a.ControlLeft? || a.ControlRight? {
      ControlKeysShowCtrl(a);
      ControlKeysShowCtrl(b);
    } else {
      AltKeysShowAlt(a);
      AltKeysShowAlt(b);
    }
  }

  /** The text of a button: with a shortcut key, the key's name in parentheses after the text. */
  function ButtonLabel(text: string, key: Components.Option<KeyCode>): (caption: string)
    ensures key.None? ==> caption == text
    ensures key.Some? ==>
              && |caption| == |text| + |KeyToString(key.value)| + 3
              && caption[..|text|] == text
              && caption[|text|..] == " (" + KeyToString(key.value) + ")"
  {
    if key.Some? then text + " (" + KeyToString(key.value) + ")" else text
  }

  /** The text can be read back from a label when the key is known. */
  lemma LabelKeepsText(text: string, key: Components.Option<KeyCode>)
    ensures var caption := ButtonLabel(text, key);
            |text| <= |caption| && caption[..|text|] == text
  {
  }
}
