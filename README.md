# SecureLock lock screen — a Dafny model

SecureLock (PCSec) is a full-screen lock window for Windows written in
Python with Qt. While it is locked:

- A low-level keyboard hook swallows system key combinations.
- The Task Manager policy may be switched off.
- A wrong input is a wrong key, Escape in passcode mode, a pointer press
  or a pointer move while a button is held, or a wrong passcode.
- Wrong inputs are rate-limited by a capture cooldown. A wrong input that
  comes after the cooldown has passed is logged and starts a
  capture-and-notify run; one inside the cooldown is dropped without a
  log line or a notice.
- The capture-and-notify run takes each capture that is switched on (a
  screenshot, a camera frame, an audio clip), then e-mails what it got.
  By default only the screenshot is on, and e-mail is off.
- The configuration is a JSON file, validated field by field against a
  set of defaults.

This project models the decision and state logic of `src/main.py`:

- the hook's key filter;
- hook installation and removal, and the Task Manager policy;
- configuration validation and the key-name table;
- the classification of inputs;
- the capture cooldown;
- the lock window's lifecycle;
- the assembly and the guards of a notification.

Device, Qt, Win32 and SMTP calls become parameters of the model.

Modules:

| module | models |
|---|---|
| `PyStr` (`pystr.dfy`) | Python's `strip()`, `upper()` and `isalnum()` as the configuration code uses them |
| `PyJson` (`pyjson.dfy`) | JSON values as loaded by `json`, `str(v)` and `int(v)` |
| `QtKeys` (`qtkeys.dfy`) | `_QT_KEY_MAP` and `to_qt_key` |
| `Config` (`config.dfy`) | `DEFAULT_CONFIG` and `validate_config`, as a method over a dictionary with a loop over the boolean settings |
| `KeyFilter` (`keyfilter.dfy`) | `low_level_keyboard_proc` |
| `Hooks` (`hooks.dfy`) | class `HookSystem`: the global `hook_id` and the `DisableTaskMgr` registry value, with `install_keyboard_hook`, `uninstall_keyboard_hook`, `disable_task_manager` and `enable_task_manager` |
| `Input` (`input.dfy`) | the decisions of `keyPressEvent`, the mouse handlers and `_on_pass_enter` |
| `Debounce` (`debounce.dfy`) | the cooldown of `_trigger_wrong_input` over a sequence of wrong inputs |
| `Lock` (`lockwindow.dfy`) | class `LockWindow`: the settings read in `__init__`, and the event handlers, `_unlock`, `closeEvent` and `_trigger_wrong_input` |
| `Evidence` (`evidence.dfy`) | `_capture_and_notify` (attachments, subject, body) and `send_email` (guards, addresses, attachments) |

`LockWindow.Valid()` is the invariant that every handler keeps:

- The keyboard hook is live exactly while the window is locked and the
  hook was installed.
- A hook is released at most once.
- A closed window is unlocked.
- The passcode field holds at most 64 UTF-16 code units.
- `last_capture_ts` and the notices started agree with the cooldown model
  `Debounce.Fired`, applied to every wrong input seen so far.

Points where the code behaves otherwise than a reader might expect (the
model follows the code, except where a point says otherwise):

- `_unlock` is not idempotent. A second call runs `enable_task_manager`
  again, but the hook is still released only once, because
  `uninstall_keyboard_hook` does nothing once `hook_id` is null.
- An invalid `unlock_mode` is not an error. It keeps the default, "key".
- In the model, the validated safe key is always a single ASCII upper-case
  letter or digit, so it always has a key code. The source's check also
  accepts non-ASCII characters (see "## Left out").
- An empty unlock key in key mode means that no key unlocks. The passcode
  field is not shown in key mode, so there is then no way to unlock
  (`Lock.LockWindow.KeyPressEvent`).
- `last_capture_ts` starts at 0. On a clock that also starts at 0, inputs
  at 0, 31 and 62 with a 30-second cooldown fire twice, not three times
  (`Debounce.ClockFromZero`). On the wall clock the window uses, the first
  wrong input fires.
- Validation accepts a passcode of 4 or more characters, with no upper
  bound. The passcode field takes at most 64 UTF-16 code units, as Qt counts
  them, and a character above U+FFFF (an emoji, say) takes two. A longer
  stored passcode can never be entered (`Lock.LongPasscodeNeverMatches`).
  That includes 33 emoji: 33 characters, but 66 code units
  (`Lock.WidePasscodeLockedOut`).
- In `send_email`, a non-numeric `SMTP_PORT` raises before the
  missing-configuration check.
- A `MAIL_FROM_NAME` set to the empty string stays empty.

## Model

| member | source | states |
|---|---|---|
| PyStr.StripLeftShape | src/main.py:238 | the left strip keeps a suffix, drops only whitespace, and leaves no whitespace at the front |
| PyStr.StripRightShape | src/main.py:238 | the right strip keeps a prefix, drops only whitespace, and leaves no whitespace at the end |
| PyStr.StripOfTrimmed | src/main.py:238 | a string with no whitespace at either end is its own `strip()` |
| PyStr.StripIdempotent | src/main.py:238 | stripping twice is stripping once |
| PyStr.StripPadded | src/main.py:478 | whitespace added around a string does not change its `strip()` |
| PyStr.UpperChar | src/main.py:291 | `upper()` of one character: a lower-case ASCII letter maps to its capital; every other character is kept |
| PyStr.UpperKeepsSpaces | src/main.py:291 | `upper()` neither creates nor removes whitespace, position by position |
| PyStr.UpperIdempotent | src/main.py:291 | upper-casing twice is upper-casing once |
| PyStr.StripUpperCommute | src/main.py:478 | `s.strip().upper() == s.upper().strip()` |
| PyJson.NatToString | src/main.py:697 | `str(n)` for a natural number: non-empty, all decimal digits, and has a leading zero only for 0 |
| PyJson.IntToString | src/main.py:697 | `str(i)`: starts with '-' exactly for a negative number and ends with a digit |
| PyJson.ToInt | src/main.py:267 | `int(v)`: an integer is itself, `True`/`False` are 1/0, and `None`, lists and objects are refused |
| PyJson.DropSeparators | src/main.py:267 | removing the `_` separators of a numeral leaves only digits, and a numeral without separators is unchanged |
| PyJson.NumeralValueOfNatToString | src/main.py:267 | the digits `str(n)` writes have the value `n` |
| PyJson.ParseIntOfIntToString | src/main.py:267 | `int(str(i)) == i` for every integer |
| PyJson.IntToStringInjective | src/main.py:697 | distinct key codes are written as distinct texts |
| QtKeys.FunctionKeyNumber | src/main.py:465 | a function-key number read from a name is between 1 and 24 |
| QtKeys.FunctionKeyNames | src/main.py:465 | "F" followed by `str(n)` names function key n, for every n from 1 to 24 |
| QtKeys.F12Named | src/main.py:206 | the default unlock key name "F12" is known and names F12 |
| QtKeys.TableNamesKnown | src/main.py:464-473 | every name written out in the table (letters, digits, F1 to F24, ESC, ENTER, SPACE, TAB, BACKSPACE) has a key code |
| QtKeys.FunctionKeyNameListed | src/main.py:465 | a name "F" plus a number the table reads as a function key is one of "F1" to "F24" |
| QtKeys.KeyNamesAreTheTable | src/main.py:464-473 | a name has a key code exactly when it is one of the names written out in the table; "", "F0", "F01" and "F25" have none |
| QtKeys.ToQtKeyNormalises | src/main.py:475-479 | `to_qt_key` gives the same answer for a name, its upper-cased form and its stripped form |
| QtKeys.ToQtKeyPadded | src/main.py:478 | whitespace around a key name never changes `to_qt_key` |
| Config.AllFieldsListed | src/main.py:204-224 | every field is in `DEFAULT_CONFIG`, with its default value |
| Config.BoolSettingChecked | src/main.py:253-262 | every field of the boolean list is validated by the type check "is a bool" |
| Config.ValidationOrderComplete | src/main.py:226-297 | `validate_config` handles every field, and no field twice |
| Config.HandledAllAgrees | src/main.py:226-297 | handling distinct fields in turn validates exactly those fields and leaves the rest at their defaults |
| Config.HandledAllIsSanitize | src/main.py:226-297 | handling the fields in the source's order gives the field-by-field result (input value when valid, else default) |
| Config.ValidationSteps | src/main.py:226-297 | the blocks of `validate_config`, one after another, give that result |
| Config.ValidateUnlockMode | src/main.py:231-234 | `unlock_mode` is taken from the input only when it is "key" or "passcode"; otherwise the default stays |
| Config.ValidateUnlockKey | src/main.py:237-242 | `unlock_key` becomes the stripped text of the input when `to_qt_key` knows it or it is empty; otherwise the default stays |
| Config.ValidatePasscode | src/main.py:245-250 | `unlock_passcode` becomes `str` of the input when that has at least 4 characters |
| Config.ValidateBool | src/main.py:260-262 | one pass of the boolean loop takes the input value only when it is a JSON boolean |
| Config.ValidateAudioSeconds | src/main.py:265-273 | `audio_seconds` becomes `int` of the input when the conversion succeeds and gives 1 to 60; a conversion error keeps the default |
| Config.ValidateCooldown | src/main.py:275-283 | the cooldown becomes `int` of the input when the conversion succeeds and gives 0 to 3600; a conversion error keeps the default |
| Config.ValidateTheme | src/main.py:286-287 | `ui_theme` is taken only when it is "dark" or "light" |
| Config.ValidateSafeKey | src/main.py:290-295 | `safe_key` becomes the stripped, upper-cased text of the input when that is a single letter or digit |
| Config.ValidateConfig | src/main.py:226-297 | the result has exactly the default keys; each field is the input's converted value when it passes the field's check, and the default otherwise |
| Config.AcceptStable | src/main.py:238-293 | a value a check has produced passes that check again unchanged |
| Config.DefaultUnlockKeyAccepted | src/main.py:206 | the default unlock key passes its own check |
| Config.DefaultSafeKeyAccepted | src/main.py:207 | the default safe key passes its own check |
| Config.DefaultAccepted | src/main.py:204-224 | every default value passes its field's check unchanged |
| Config.DefaultsWellFormed | src/main.py:204-224 | `DEFAULT_CONFIG` is a configuration that passes every check |
| Config.SanitizeWellFormed | src/main.py:226-297 | whatever the input, the validated configuration passes every check |
| Config.SanitizeFixesWellFormed | src/main.py:226-297 | a dictionary holding a configuration that passes every check validates to that configuration, whatever else it holds |
| Config.SanitizeIdempotent | src/main.py:299-323 | validating what was saved from a validated configuration gives the same configuration back |
| Config.WellFormedChoices | src/main.py:231-287 | after validation, the unlock mode is "key" or "passcode" and the theme is "dark" or "light" |
| Config.WellFormedUnlockKey | src/main.py:237-240 | after validation, the unlock key is stripped text that is empty or known to `to_qt_key` |
| Config.WellFormedPasscode | src/main.py:245-248 | after validation, the passcode is text of at least 4 characters |
| Config.WellFormedBools | src/main.py:253-262 | after validation, every boolean setting is a boolean |
| Config.WellFormedAudioSeconds | src/main.py:265-269 | after validation, `audio_seconds` is an integer from 1 to 60 |
| Config.WellFormedCooldown | src/main.py:275-279 | after validation, the cooldown is an integer from 0 to 3600 |
| Config.WellFormedSafeKey | src/main.py:290-293 | after validation, the safe key is one character, an upper-case letter or a digit |
| Config.NullPasscodeAccepted | src/main.py:245-248 | a JSON `null` passcode is accepted as the passcode "None" |
| Config.TrueAudioSecondsAccepted | src/main.py:265-269 | a JSON `true` recording length is accepted as 1 second |
| Config.NumericPasscodeAccepted | src/main.py:245-248 | a passcode given as a number of at least 1000 is stored as its decimal text |
| KeyFilter.BlocksExactlyTheTable | src/main.py:73-91 | for a key-down action, the hook blocks exactly Ctrl+Alt+Del, Alt+Tab, Alt+F4, Ctrl+Esc and the Windows keys with any modifiers |
| KeyFilter.OnlyKeyDownActionsBlocked | src/main.py:73-93 | non-action codes and messages other than key-down and system-key-down are always passed on |
| KeyFilter.BlockedKeys | src/main.py:83-89 | only Delete, Tab, F4, Escape and the Windows keys are ever blocked |
| KeyFilter.WindowsKeysAlwaysBlocked | src/main.py:87 | the Windows keys are blocked on key-down whatever the modifier states |
| KeyFilter.UnmodifiedKeys | src/main.py:83-89 | with neither Ctrl nor Alt down, exactly the Windows keys are blocked |
| KeyFilter.CtrlEscapeBlocked | src/main.py:82-88 | with Ctrl down, Escape is blocked, so Ctrl+Shift+Esc is covered too |
| KeyFilter.Down | src/main.py:79-80 | a modifier counts as down exactly when bit 15 of its key state is set; the low "pressed since" bit does not count |
| Hooks.HookSystem.constructor | src/main.py:68-69 | the program starts with no hook handle |
| Hooks.HookSystem.InstallKeyboardHook | src/main.py:95-115 | success exactly when the call returns a non-null handle, which is then stored; when the call raises, the handle is unchanged and the result is failure |
| Hooks.HookSystem.UninstallKeyboardHook | src/main.py:117-123 | a live hook is released once and the handle cleared; with no hook, nothing changes |
| Hooks.HookSystem.DisableTaskManager | src/main.py:125-134 | the policy value is set exactly when the registry write succeeds |
| Hooks.HookSystem.EnableTaskManager | src/main.py:136-145 | the policy value is removed exactly when the key can be opened for writing |
| Input.ClassifyKey | src/main.py:682-704 | in key mode, ignore exactly repeats and the safe key; unlock exactly on the unlock key when it is defined and is not the safe key; every other key is wrong, reported with its code. In passcode mode, only Escape is wrong and no key unlocks |
| Input.ClassifyPointer | src/main.py:706-714 | a press or move is wrong exactly in key mode with pointer triggers on, reported as a click or a move; otherwise it is ignored |
| Input.ClassifyPasscode | src/main.py:716-722 | a submitted text unlocks exactly when it equals the stored passcode; otherwise it is a wrong passcode |
| Input.SafeKeyWins | src/main.py:689-695 | a safe key equal to the unlock key never unlocks, and in key mode it is ignored |
| Input.NoUnlockKeyNeverUnlocks | src/main.py:693-697 | with no unlock key, no key press unlocks |
| Input.RepeatsIgnoredInKeyMode | src/main.py:685-687 | in key mode an auto-repeat is always ignored |
| Input.RepeatedEscapeInPasscodeMode | src/main.py:698-702 | in passcode mode an auto-repeated Escape is still a wrong input |
| Input.ReasonTextInjective | src/main.py:697-722 | distinct reasons are logged with distinct texts |
| Debounce.HandleOne | src/main.py:631-636 | one more wrong input fires exactly when the cooldown since the last capture has passed; then it becomes the last capture, and otherwise nothing changes |
| Debounce.LastCaptureIsLastFired | src/main.py:634-636 | the last capture time is the time of the last fired input, or the start when none fired; fired inputs are among the inputs |
| Debounce.FiredSpaced | src/main.py:634-636 | each fired input is at least a cooldown after the previous fired one, and the first at least a cooldown after the start |
| Debounce.FiredPairwiseApart | src/main.py:634-636 | any two fired inputs are at least a cooldown apart |
| Debounce.FiredLowerBound | src/main.py:634-636 | the k-th fired input is at least (k+1) cooldowns after the start |
| Debounce.FiredCountBound | src/main.py:634-636 | over a horizon of h seconds, at most h / cooldown inputs fire |
| Debounce.BurstSuppressed | src/main.py:634-635 | inputs all within a cooldown of the last capture are all suppressed and change nothing |
| Debounce.SpacedAllFire | src/main.py:634-636 | inputs spaced at least a cooldown apart all fire |
| Debounce.ZeroCooldownAllFire | src/main.py:494 | with a zero cooldown, every input of a non-decreasing clock fires |
| Debounce.ClockFromZero | src/main.py:493 | since `last_capture_ts` starts at 0, inputs at 0, 31 and 62 with a 30-second cooldown fire only at 31 and 62; on a wall clock all three fire |
| Lock.Cooldown | src/main.py:494 | the cooldown the window uses is the validated value, between 0 and 3600 |
| Lock.Mode | src/main.py:496 | key mode exactly when the configured mode is "key", and passcode mode exactly when it is "passcode" |
| Lock.UnlockKeyCode | src/main.py:497 | there is no unlock key exactly when the configured name is empty |
| Lock.SafeKeyCode | src/main.py:498 | the safe key code is always defined: the code of its single ASCII character (the non-ASCII case is under "## Left out") |
| Lock.Passcode | src/main.py:499 | the stored passcode is the configured text, at least 4 characters long |
| Lock.CharUnits | src/main.py:526 | a character takes two UTF-16 code units exactly when it is above U+FFFF, and one otherwise |
| Lock.Utf16Length | src/main.py:526 | Qt's length of a text is between its number of characters and twice that |
| Lock.Truncated | src/main.py:526 | the passcode field keeps the whole text when it fits in 64 UTF-16 code units; otherwise it keeps the longest prefix that fits, so one more character would not fit |
| Lock.LongPasscodeNeverMatches | src/main.py:526 | a stored passcode longer than 64 UTF-16 code units is never matched by what the field can hold |
| Lock.WideUtf16Length | src/main.py:526 | a text made only of characters above U+FFFF has twice as many code units as characters |
| Lock.WidePasscodeLockedOut | src/main.py:245-248 | a passcode of 33 emoji passes validation and is kept, but is longer than the field and is never matched |
| Lock.LongPasscodeValidates | src/main.py:245-248 | validation keeps a passcode longer than 64 UTF-16 code units |
| Lock.SettingsOf | src/main.py:492-510 | the settings the window reads: a cooldown that is not negative, a passcode of at least 4 characters, a defined safe key |
| Lock.DefaultUnlockKey | src/main.py:497 | with the default configuration, F12 unlocks |
| Lock.DefaultSafeKey | src/main.py:498 | with the default configuration, Y is the safe key |
| Lock.DefaultMode | src/main.py:494-499 | with the default configuration: key mode, a 30-second cooldown, passcode "123456" |
| Lock.DefaultSwitches | src/main.py:502-510 | with the default configuration, security mode installs the hook, leaves the Task Manager alone, and pointer input counts |
| Lock.LockWindow.constructor | src/main.py:486-510 | starts locked with no capture; with security mode on, sets the policy if configured and installs the hook if configured; `hook_installed` records a successful install |
| Lock.LockWindow.TriggerWrongInput | src/main.py:631-638 | fires exactly when `now - last_capture_ts >= cooldown`; a fired input moves the capture time to `now` and starts a notice; a suppressed one changes nothing |
| Lock.LockWindow.CloseEvent | src/main.py:737-744 | refused while locked; once unlocked, closes. Unlock has already released the hook, so the uninstall call releases nothing again |
| Lock.LockWindow.Unlock | src/main.py:724-735 | unlocks and closes; removes the policy when it was set up; releases a live hook exactly once; leaves captures alone |
| Lock.LockWindow.KeyPressEvent | src/main.py:682-704 | unlocks, counts a wrong input, or changes nothing, as `ClassifyKey` decides; a key press unlocks only in key mode, on the configured unlock key, so with no unlock key none does |
| Lock.LockWindow.PointerEvent | src/main.py:706-714 | counts a wrong input or changes nothing, as `ClassifyPointer` decides |
| Lock.LockWindow.SetPassInput | src/main.py:526-529 | in passcode mode, where the field is shown, the passcode field holds the longest prefix of the entered text that fits in 64 UTF-16 code units |
| Lock.LockWindow.OnPassEnter | src/main.py:716-722 | in passcode mode, where the field is shown, the stored passcode unlocks; anything else clears the field and counts a wrong passcode; a passcode longer than 64 UTF-16 code units never unlocks |
| Evidence.Captured | src/main.py:378-458 | a capture gives a file exactly when it is enabled and the device produced one |
| Evidence.Attach | src/main.py:655-666 | a capture adds its file to the attachments when it produced one, and nothing otherwise |
| Evidence.BodyFrame | src/main.py:671-677 | the body starts with the machine, time and reason lines and ends with the log line |
| Evidence.InfoSectionPresent | src/main.py:674-675 | the system information section is present exactly when it is enabled |
| Evidence.FlagText | src/main.py:672 | a capture flag is written "True" exactly when the capture produced a file, and "False" otherwise |
| Evidence.Getenv | src/main.py:340-345 | an environment variable reads as its value when it is set, and as nothing otherwise |
| Evidence.ReadableShape | src/main.py:358-364 | the attached files are exactly the listed files that can be read, none more often than listed |
| Evidence.AllReadable | src/main.py:358-364 | when every file can be read, all are attached in order |
| Evidence.DeliverWhen | src/main.py:336-349 | a message is sent exactly when e-mail is enabled, the port is a number, and the host, user and password are set; the recipient then always exists |
| Evidence.Addresses | src/main.py:344-356 | the recipient is `MAIL_TO` when it is set and not empty, else the user; the sender is the named user; the subject and body are as given |
| Evidence.PortDefault | src/main.py:341 | without `SMTP_PORT` the port is 587; an empty `SMTP_PORT` stops the send |
| Evidence.FromNameDefault | src/main.py:345 | an unset sender name is "SecureLock"; one set to the empty string stays empty |
| Evidence.AttachReadable | src/main.py:359-364 | the attachment loop adds exactly the readable files, in order |
| Evidence.SendEmail | src/main.py:335-364 | the guards in the source's order, then the message with its attachments |
| Evidence.CollectAttachments | src/main.py:653-666 | the attachments are the screenshot, camera frame and audio clip, in that order, each only when produced |
| Evidence.ComposeBody | src/main.py:671-677 | the body is built from the header, flags, optional system information and log line |
| Evidence.CaptureAndNotify | src/main.py:650-679 | the attachments come from the enabled captures that produced a file; the subject carries the time; the body carries the capture flags; the message follows the `send_email` rules |
| Evidence.AttachmentOrder | src/main.py:653-666 | one attachment per produced capture, screenshot first and audio last |

## Left out

- Time: `time.time()` is a float; the model uses whole seconds. `now` is a parameter of every handler.
- Concurrency: `threading.Thread` and `capture_lock` are left out. Handlers run one after another, and a fired input records a `Notice` instead of starting a thread.
- Win32 and ctypes: `SetWindowsHookExW`, `GetAsyncKeyState`, `CallNextHookExW` and `winreg` become parameters. These are the install outcome, the key states and whether the registry write succeeds; `CallNext` stands for the next hook's answer. The model does not capture that Windows may never deliver Ctrl+Alt+Del to a hook.
- Configuration I/O: `load_config`, `save_config` and directory creation are file I/O. The model starts from a loaded dictionary. A document whose top level is not an object, which falls back to the defaults, is not modelled.
- JSON floats are not modelled, and neither is `int()` of a float or of non-ASCII digits. Lists and objects are seen only through their `str()` text.
- Python `upper()` and `isalnum()` are restricted to ASCII. Non-ASCII letters in a safe key or key name are not modelled.
- Config.ValidateSafeKey: the source also accepts a non-ASCII alphanumeric safe key such as "ç", "é" or "²". `to_qt_key` has no entry for it, so the window then has no safe key at all; the model never produces that state, and rejects these keys instead. The source also accepts "ı" and "ſ", which Python upper-cases to "I" and "S", so they become the safe keys I and S there; the model rejects both.
- Lock.LockWindow.PointerEvent: the window never turns on mouse tracking, so Qt delivers a move only while a button is held. The model takes whatever pointer events it is given and does not capture that Qt filtering.
- Lock.Mode: the window lower-cases the mode. Validation only ever keeps "key" or "passcode", so that step is not modelled.
- Lock.LockWindow.constructor: takes the settings computed by `Lock.SettingsOf` from the validated configuration, not the dictionary itself.
- Lock.Truncated: Qt cuts a text at exactly 64 code units, and can split a surrogate pair, leaving half a character. A Dafny string has no half characters, so the model keeps only whole characters. Either way the field cannot hold a passcode of more than 64 code units.
- Qt: rendering, the banner text, the fade animation, focus handling and event acceptance are user interface, and are not modelled.
- Devices: camera, screen and audio capture are modelled as optional file paths. The audio duration and `get_system_info` are parameters: a text, and whether each file can be read.
- Delivery: SMTP and TLS delivery, and the host name and time strings, are I/O. `send_email` is modelled up to the message it would hand to the server.
- Logging is left out.
- `config_manager.py` is not part of this model. It is an interactive editor around file I/O.
