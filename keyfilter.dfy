/**
 * The decision of the low-level keyboard hook the lock screen installs
 * while it is locked: which key events it swallows and which it hands on
 * to the next hook in the chain.
 */
module KeyFilter {

  // Win32 constants used by the hook (WinUser.h).
  const HcAction: int := 0
  const WmKeyDown: int := 0x0100
  const WmSysKeyDown: int := 0x0104
  const VkTab: int := 0x09
  const VkEscape: int := 0x1B
  const VkDelete: int := 0x2E
  const VkLWin: int := 0x5B
  const VkRWin: int := 0x5C
  const VkF4: int := 0x73

  /** What the hook procedure returns: 1 (swallow the event) or the next hook's answer. */
  datatype HookResult = Block | CallNext

  /**
   * `GetAsyncKeyState(vk) & 0x8000`: the most significant bit says the key
   * is down now; the low "pressed since the last call" bit does not count.
   */
  predicate Down(state: bv16): (down: bool)
    ensures down <==> state >= 0x8000
    ensures down == ((state | 1) & 0x8000 != 0)
  {
    state & 0x8000 != 0
  }

  /** The key combinations the hook swallows. */
  predicate BlockedCombination(vkCode: int, ctrl: bool, alt: bool) {
    || (ctrl && alt && vkCode == VkDelete)
    || (alt && vkCode == VkTab)
    || (alt && vkCode == VkF4)
    || vkCode == VkLWin || vkCode == VkRWin
    || (ctrl && vkCode == VkEscape)
  }

  /**
   * `low_level_keyboard_proc`: for an action code and a key-down or
   * system-key-down message, read the Ctrl and Alt states and block the
   * listed combinations; pass everything else on.
   */
  function LowLevelKeyboardProc(nCode: int, wParam: int, vkCode: int, ctrlState: bv16, altState: bv16): HookResult {
    if nCode == HcAction && (wParam == WmKeyDown || wParam == WmSysKeyDown)
       && BlockedCombination(vkCode, Down(ctrlState), Down(altState))
    then Block
    else CallNext
  }

  /** A key with the state of the two modifiers the hook reads. */
  datatype Chord = Chord(vkCode: int, ctrl: bool, alt: bool)

  /** Every blocked chord, written out modifier state by modifier state. */
  const BlockedChords: set<Chord> := {
    Chord(VkDelete, true, true),
    Chord(VkTab, false, true), Chord(VkTab, true, true),
    Chord(VkF4, false, true), Chord(VkF4, true, true),
    Chord(VkLWin, false, false), Chord(VkLWin, false, true), Chord(VkLWin, true, false), Chord(VkLWin, true, true),
    Chord(VkRWin, false, false), Chord(VkRWin, false, true), Chord(VkRWin, true, false), Chord(VkRWin, true, true),
    Chord(VkEscape, true, false), Chord(VkEscape, true, true)
  }

  /** For a key-down event, the hook blocks exactly the chords of the table. */
  lemma BlocksExactlyTheTable(wParam: int, vkCode: int, ctrlState: bv16, altState: bv16)
    requires wParam == WmKeyDown || wParam == WmSysKeyDown
    ensures LowLevelKeyboardProc(HcAction, wParam, vkCode, ctrlState, altState) == Block
        <==> Chord(vkCode, Down(ctrlState), Down(altState)) in BlockedChords
  {
    var c := Chord(vkCode, Down(ctrlState), Down(altState));
    if BlockedCombination(vkCode, Down(ctrlState), Down(altState)) {
      assert c in BlockedChords;
    } else {
      assert c !in BlockedChords;
    }
  }

  /** Events that are not actions, and key-up messages, are never blocked. */
  lemma OnlyKeyDownActionsBlocked(nCode: int, wParam: int, vkCode: int, ctrlState: bv16, altState: bv16)
    requires nCode != HcAction || (wParam != WmKeyDown && wParam != WmSysKeyDown)
    ensures LowLevelKeyboardProc(nCode, wParam, vkCode, ctrlState, altState) == CallNext
  {
  }

  /** Only Delete, Tab, F4, the Windows keys and Escape are ever blocked. */
  lemma BlockedKeys(nCode: int, wParam: int, vkCode: int, ctrlState: bv16, altState: bv16)
    requires LowLevelKeyboardProc(nCode, wParam, vkCode, ctrlState, altState) == Block
    ensures vkCode in {VkDelete, VkTab, VkF4, VkLWin, VkRWin, VkEscape}
  {
  }

  /** The Windows keys are blocked on key-down whatever the modifiers. */
  lemma WindowsKeysAlwaysBlocked(wParam: int, vkCode: int, ctrlState: bv16, altState: bv16)
    requires wParam == WmKeyDown || wParam == WmSysKeyDown
    requires vkCode == VkLWin || vkCode == VkRWin
    ensures LowLevelKeyboardProc(HcAction, wParam, vkCode, ctrlState, altState) == Block
  {
  }

  /** With neither Ctrl nor Alt down, only the Windows keys are blocked. */
  lemma UnmodifiedKeys(wParam: int, vkCode: int, ctrlState: bv16, altState: bv16)
    requires wParam == WmKeyDown || wParam == WmSysKeyDown
    requires !Down(ctrlState) && !Down(altState)
    ensures LowLevelKeyboardProc(HcAction, wParam, vkCode, ctrlState, altState) == Block
        <==> vkCode == VkLWin || vkCode == VkRWin
  {
  }

  /**
   * Ctrl+Shift+Esc (the Task Manager shortcut) is blocked by the Ctrl+Esc
   * rule: the hook does not look at Shift.
   */
  lemma CtrlEscapeBlocked(wParam: int, ctrlState: bv16, altState: bv16)
    requires wParam == WmKeyDown || wParam == WmSysKeyDown
    requires Down(ctrlState)
    ensures LowLevelKeyboardProc(HcAction, wParam, VkEscape, ctrlState, altState) == Block
  {
  }
}
