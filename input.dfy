/**
 * How the lock window classifies what the user does: a key press, a
 * pointer press or move, or a submitted passcode either does nothing,
 * unlocks, or is a wrong input with a reason. The reason is logged and
 * mailed only when the wrong input fires, that is, when the capture
 * cooldown has passed.
 */
module Input {
  import opened Wrappers
  import opened PyJson
  import opened QtKeys

  datatype UnlockMode = KeyMode | PasscodeMode

  /** Why an input counts as wrong. */
  datatype Reason = WrongKey(code: int) | EscapePressed | MouseClick | MouseMove | WrongPasscode

  const WrongKeyPrefix: string := "Yanlış tuş: code="

  /** The reason text the window logs and puts into the notification. */
  function ReasonText(r: Reason): string {
    match r
    case WrongKey(code) => WrongKeyPrefix + IntToString(code)
    case EscapePressed => "ESC"
    case MouseClick => "Mouse tıklaması"
    case MouseMove => "Mouse hareketi"
    case WrongPasscode => "Yanlış şifre"
  }

  /** The response to an input. */
  datatype Action = Ignore | Unlock | Violation(reason: Reason)

  /**
   * `keyPressEvent`. In key mode, checked in this order: an auto-repeat is
   * ignored, the safe key is ignored, the unlock key unlocks, and any other
   * key is wrong. In passcode mode only Escape is wrong; other keys do
   * nothing here.
   */
  function ClassifyKey(mode: UnlockMode, unlockKey: Option<int>, safeKey: Option<int>, key: int, autoRepeat: bool): (a: Action)
    ensures mode == KeyMode ==> (a == Ignore <==> autoRepeat || safeKey == Some(key))
    ensures a == Unlock <==> mode == KeyMode && !autoRepeat && safeKey != Some(key) && unlockKey == Some(key)
    ensures mode == KeyMode ==> (a.Violation? <==> !autoRepeat && safeKey != Some(key) && unlockKey != Some(key))
    ensures mode == PasscodeMode ==> (a.Violation? <==> key == KeyEscape) && a != Unlock
    ensures a.Violation? ==> a.reason == (if mode == KeyMode then WrongKey(key) else EscapePressed)
  {
    match mode
    case KeyMode =>
      if autoRepeat then Ignore
      else if safeKey.Some? && key == safeKey.value then Ignore
      else if unlockKey.Some? && key == unlockKey.value then Unlock
      else Violation(WrongKey(key))
    case PasscodeMode =>
      if key == KeyEscape then Violation(EscapePressed) else Ignore
  }

  datatype Pointer = Press | Move

  /** `mousePressEvent` and `mouseMoveEvent`: wrong in key mode when pointer triggers are on. */
  function ClassifyPointer(mode: UnlockMode, mouseTriggers: bool, p: Pointer): (a: Action)
    ensures a.Violation? <==> mode == KeyMode && mouseTriggers
    ensures !a.Violation? ==> a == Ignore
    ensures a.Violation? ==> a.reason == (if p == Press then MouseClick else MouseMove)
  {
    if mode == KeyMode && mouseTriggers then
      Violation(if p == Press then MouseClick else MouseMove)
    else
      Ignore
  }

  /** `_on_pass_enter`: the exact stored passcode unlocks; anything else is wrong. */
  function ClassifyPasscode(text: string, stored: string): (a: Action)
    ensures a == Unlock <==> text == stored
    ensures a != Unlock ==> a == Violation(WrongPasscode)
  {
    if text == stored then Unlock else Violation(WrongPasscode)
  }

  /** The safe key wins over an equal unlock key: pressing it never unlocks. */
  lemma SafeKeyWins(mode: UnlockMode, k: int, autoRepeat: bool)
    ensures ClassifyKey(mode, Some(k), Some(k), k, autoRepeat) != Unlock
    ensures mode == KeyMode ==> ClassifyKey(mode, Some(k), Some(k), k, autoRepeat) == Ignore
  {
  }

  /** With no unlock key, no key press ever unlocks. */
  lemma NoUnlockKeyNeverUnlocks(mode: UnlockMode, safeKey: Option<int>, key: int, autoRepeat: bool)
    ensures ClassifyKey(mode, None, safeKey, key, autoRepeat) != Unlock
  {
  }

  /** Auto-repeated keys are never counted as wrong in key mode. */
  lemma RepeatsIgnoredInKeyMode(unlockKey: Option<int>, safeKey: Option<int>, key: int)
    ensures ClassifyKey(KeyMode, unlockKey, safeKey, key, true) == Ignore
  {
  }

  /** In passcode mode a held-down Escape is counted on every repeat. */
  lemma RepeatedEscapeInPasscodeMode(unlockKey: Option<int>, safeKey: Option<int>)
    ensures ClassifyKey(PasscodeMode, unlockKey, safeKey, KeyEscape, true) == Violation(EscapePressed)
  {
  }

  lemma {:induction false} WrongKeyTextLength(code: int)
    ensures |ReasonText(WrongKey(code))| > 17
  {
    assert |WrongKeyPrefix| == 17;
  }

  /** Distinct reasons are logged with distinct texts. */
  lemma ReasonTextInjective(r1: Reason, r2: Reason)
    requires ReasonText(r1) == ReasonText(r2)
    ensures r1 == r2
  {
    if r1.WrongKey? && r2.WrongKey? {
      var t1 := ReasonText(r1);
      WrongKeyTextLength(r1.code);
      assert IntToString(r1.code) == t1[17..];
      assert IntToString(r2.code) == t1[17..];
      IntToStringInjective(r1.code, r2.code);
    }
  }
}
