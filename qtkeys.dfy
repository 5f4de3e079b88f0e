/**
 * The key-name table the lock window uses to turn a configured key name
 * into a Qt key code, and `to_qt_key`, which looks a name up in it.
 */
module QtKeys {
  import opened Wrappers
  import opened PyStr
  import opened PyJson

  // Qt key codes (the values of the Qt::Key enumeration). Letters and
  // digits are their upper-case ASCII codes; F1 to F24 are consecutive.
  const KeyEscape: int := 0x0100_0000
  const KeyTab: int := 0x0100_0001
  const KeyBackspace: int := 0x0100_0003
  const KeyReturn: int := 0x0100_0004
  const KeySpace: int := 0x20
  const KeyF1: int := 0x0100_0030
  const KeyF12: int := KeyF1 + 11

  /** `n` when `digits` is how `str(n)` writes a number `n` from 1 to 24. */
  function FunctionKeyNumber(digits: string): (r: Option<nat>)
    ensures r.Some? ==> 1 <= r.value <= 24
  {
    if 1 <= |digits| <= 2 && (forall k :: 0 <= k < |digits| ==> IsDigit(digits[k])) && digits[0] != '0' then
      var n := NumeralValue(digits);
      if 1 <= n <= 24 then Some(n) else None
    else
      None
  }

  /**
   * The table: "F1" to "F24", "A" to "Z", "0" to "9", "ESC", "ENTER",
   * "SPACE", "TAB" and "BACKSPACE", each with its Qt key code.
   */
  function KeyCode(name: string): Option<int> {
    if |name| == 1 && (IsAsciiUpper(name[0]) || IsDigit(name[0])) then Some(name[0] as int)
    else if |name| >= 2 && name[0] == 'F' && FunctionKeyNumber(name[1..]).Some? then
      Some(KeyF1 + FunctionKeyNumber(name[1..]).value - 1)
    else if name == "ESC" then Some(KeyEscape)
    else if name == "ENTER" then Some(KeyReturn)
    else if name == "SPACE" then Some(KeySpace)
    else if name == "TAB" then Some(KeyTab)
    else if name == "BACKSPACE" then Some(KeyBackspace)
    else None
  }

  /**
   * `to_qt_key(name)`: `None` for an empty name; otherwise the table entry
   * for the name with surrounding whitespace removed and letters upper-cased,
   * or `None` when there is none.
   */
  function ToQtKey(keyName: string): Option<int> {
    if keyName == "" then None else KeyCode(Upper(Strip(keyName)))
  }

  /** The names of `_QT_KEY_MAP`, written out. */
  const LetterNames: set<string> := {"A", "B", "C", "D", "E", "F", "G", "H", "I", "J", "K", "L", "M", "N", "O", "P", "Q", "R", "S", "T", "U", "V", "W", "X", "Y", "Z"}
  const DigitNames: set<string> := {"0", "1", "2", "3", "4", "5", "6", "7", "8", "9"}
  const FunctionNames: set<string> := {"F1", "F2", "F3", "F4", "F5", "F6", "F7", "F8", "F9", "F10", "F11", "F12", "F13", "F14", "F15", "F16", "F17", "F18", "F19", "F20", "F21", "F22", "F23", "F24"}
  const SpecialNames: set<string> := {"ESC", "ENTER", "SPACE", "TAB", "BACKSPACE"}
  const TableNames: set<string> := LetterNames + DigitNames + FunctionNames + SpecialNames

  /** The value of a numeral of one or two digits. */
  lemma ShortNumeralValue(d: string)
    requires 1 <= |d| <= 2 && forall k :: 0 <= k < |d| ==> IsDigit(d[k])
    ensures NumeralValue(d) == if |d| == 1 then DigitValue(d[0]) else DigitValue(d[0]) * 10 + DigitValue(d[1])
  {
    assert d[..|d| - 1][..0] == [];
    if |d| == 2 {
      assert d[..1][0] == d[0];
    }
  }

  /** The digits after the "F" of a function-key name: one digit, or "1" or "2" followed by a digit, at most 24. */
  lemma FunctionNameShape(name: string)
    requires name in FunctionNames
    ensures 2 <= |name| <= 3 && name[0] == 'F'
    ensures forall k :: 1 <= k < |name| ==> IsDigit(name[k])
    ensures '1' <= name[1] && (|name| == 3 ==> name[1] == '1' || (name[1] == '2' && name[2] <= '4'))
  {
  }

  /** The one-character names of the table are capital letters and digits. */
  lemma CharacterNameShape(name: string)
    requires name in LetterNames + DigitNames
    ensures |name| == 1 && (IsAsciiUpper(name[0]) || IsDigit(name[0]))
  {
  }

  /** The function-key names have key codes. */
  lemma FunctionNamesKnown(name: string)
    requires name in FunctionNames
    ensures KeyCode(name).Some?
  {
    FunctionNameShape(name);
    var d := name[1..];
    ShortNumeralValue(d);
    assert FunctionKeyNumber(d).Some?;
  }

  /** The named special keys have key codes. */
  lemma SpecialNamesKnown(name: string)
    requires name in SpecialNames
    ensures KeyCode(name).Some?
  {
    assert |name| >= 3 && name[0] != 'F';
    if name == "ESC" {
    } else if name == "ENTER" {
    } else if name == "SPACE" {
    } else if name == "TAB" {
    } else {
      assert name == "BACKSPACE";
    }
  }

  /** Every name of the table has a key code. */
  lemma TableNamesKnown(name: string)
    requires name in TableNames
    ensures KeyCode(name).Some?
  {
    if name in FunctionNames {
      FunctionNamesKnown(name);
    } else if name in LetterNames + DigitNames {
      CharacterNameShape(name);
    } else {
      SpecialNamesKnown(name);
    }
  }

  /** A one-character name is known exactly when it is a capital letter or a digit of the table. */
  lemma SingleCharacterNames(c: char)
    ensures KeyCode([c]).Some? <==> [c] in LetterNames + DigitNames
  {
  }

  /** A name that starts with "F" and reads as a function-key number is one of "F1" to "F24". */
  lemma FunctionKeyNameListed(name: string)
    requires |name| >= 2 && name[0] == 'F' && FunctionKeyNumber(name[1..]).Some?
    ensures name in FunctionNames
  {
    var d := name[1..];
    ShortNumeralValue(d);
    if |d| == 1 {
      assert name == ['F', d[0]];
    } else {
      assert name == ['F', d[0], d[1]];
      if d[0] == '1' {
        assert name == ['F', '1', d[1]];
      } else {
        assert d[0] == '2' && d[1] <= '4';
        assert name == ['F', '2', d[1]];
      }
    }
  }

  /** `KeyCode` knows exactly the names of the table: no others, such as "", "F0", "F01" or "F25". */
  lemma KeyNamesAreTheTable(name: string)
    ensures KeyCode(name).Some? <==> name in TableNames
  {
    if name in TableNames {
      TableNamesKnown(name);
    } else if KeyCode(name).Some? {
      if |name| == 1 && (IsAsciiUpper(name[0]) || IsDigit(name[0])) {
        assert name == [name[0]];
        SingleCharacterNames(name[0]);
      } else if |name| >= 2 && name[0] == 'F' && FunctionKeyNumber(name[1..]).Some? {
        FunctionKeyNameListed(name);
      }
    }
  }

  /** The function keys are "F" followed by their number, with no leading zero. */
  lemma {:induction false} FunctionKeyNames(n: nat)
    requires 1 <= n <= 24
    ensures KeyCode("F" + NatToString(n)) == Some(KeyF1 + n - 1)
  {
    var digits := NatToString(n);
    assert ("F" + digits)[1..] == digits;
    NumeralValueOfNatToString(n);
    assert |digits| <= 2 by {
      if n >= 10 {
        assert NatToString(n / 10) == [DigitChar(n / 10)];
      }
    }
  }

  /** "F12", the default unlock key, names F12. */
  lemma F12Named()
    ensures ToQtKey("F12") == Some(KeyF12)
  {
    StripOfTrimmed("F12");
    assert Upper("F12") == "F12";
    FunctionKeyNames(12);
    assert NatToString(12) == "12" by {
      assert NatToString(12) == NatToString(1) + [DigitChar(2)];
    }
  }

  /** Names are matched case-insensitively and regardless of surrounding whitespace. */
  lemma ToQtKeyNormalises(keyName: string)
    ensures ToQtKey(Upper(keyName)) == ToQtKey(keyName)
    ensures ToQtKey(Strip(keyName)) == ToQtKey(keyName)
  {
    if keyName != "" {
      var name := Upper(Strip(keyName));
      var upper := Upper(keyName);
      StripUpperCommute(keyName);
      UpperIdempotent(Strip(keyName));
      assert Upper(Strip(upper)) == name;
      assert ToQtKey(upper) == KeyCode(name);
      var stripped := Strip(keyName);
      StripIdempotent(keyName);
      if stripped == "" {
        assert name == "";
        KeyNamesAreTheTable("");
      } else {
        assert ToQtKey(stripped) == KeyCode(name);
      }
    }
  }

  /** Whitespace around a key name is ignored. */
  lemma ToQtKeyPadded(keyName: string, before: string, after: string)
    requires forall k :: 0 <= k < |before| ==> IsSpace(before[k])
    requires forall k :: 0 <= k < |after| ==> IsSpace(after[k])
    ensures ToQtKey(before + keyName + after) == ToQtKey(keyName)
  {
    var padded := before + keyName + after;
    StripPadded(keyName, before, after);
    assert Upper(Strip(padded)) == Upper(Strip(keyName));
    if keyName == "" && padded != "" {
      assert Strip(keyName) == "";
      assert Upper(Strip(padded)) == "";
      KeyNamesAreTheTable("");
    }
  }
}
