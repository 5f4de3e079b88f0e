/**
 * The lock window: the settings it reads from the (already validated)
 * configuration when it is created, the security features it switches on
 * and off, and its event handlers, which unlock, ignore, or report a wrong
 * input subject to the capture cooldown.
 */
module Lock {
  import opened Wrappers
  import opened PyStr
  import opened PyJson
  import opened QtKeys
  import Config
  import opened Hooks
  import opened Input
  import opened Debounce

  /** `setMaxLength(64)` on the passcode field, in UTF-16 code units as Qt counts them. */
  const MaxPassLength: nat := 64

  /** A capture-and-notify run the window started: the reason and the time it fired. */
  datatype Notice = Notice(reason: string, at: int)

  /** The fire times of a list of notices. */
  function Times(ns: seq<Notice>): (ts: seq<int>)
    ensures |ts| == |ns| && forall k :: 0 <= k < |ns| ==> ts[k] == ns[k].at
  {
    if ns == [] then [] else Times(ns[..|ns| - 1]) + [ns[|ns| - 1].at]
  }

  /** The truth value of a boolean setting (every boolean setting of a validated configuration is a JSON boolean). */
  predicate Enabled(cfg: map<Config.Field, JsonValue>, f: Config.Field)
    requires f in cfg
  {
    cfg[f] == JBool(true)
  }

  /** `max(0, int(cooldown_seconds_between_captures))`. */
  function Cooldown(cfg: map<Config.Field, JsonValue>): (c: int)
    requires Config.WellFormed(cfg)
    ensures 0 <= c <= 3600 && cfg[Config.CooldownSeconds] == JInt(c)
  {
    Config.WellFormedCooldown(cfg);
    var seconds := cfg[Config.CooldownSeconds].i;
    if seconds < 0 then 0 else seconds
  }

  /** `(unlock_mode or 'key').lower()`, as `keyPressEvent` tests it: "key" or anything else. */
  function Mode(cfg: map<Config.Field, JsonValue>): (m: UnlockMode)
    requires Config.WellFormed(cfg)
    ensures m == KeyMode <==> cfg[Config.UnlockMode] == JString("key")
    ensures m == PasscodeMode <==> cfg[Config.UnlockMode] == JString("passcode")
  {
    Config.WellFormedChoices(cfg);
    if cfg[Config.UnlockMode] == JString("key") then KeyMode else PasscodeMode
  }

  /** `to_qt_key(unlock_key)`: no unlock key exactly when the configured name is empty. */
  function UnlockKeyCode(cfg: map<Config.Field, JsonValue>): (r: Option<int>)
    requires Config.WellFormed(cfg)
    ensures r.None? <==> cfg[Config.UnlockKey] == JString("")
  {
    Config.WellFormedUnlockKey(cfg);
    ToQtKey(cfg[Config.UnlockKey].s)
  }

  /** `to_qt_key(safe_key)`: always defined, the code of the one upper-case letter or digit. */
  function SafeKeyCode(cfg: map<Config.Field, JsonValue>): (r: Option<int>)
    requires Config.WellFormed(cfg)
    ensures cfg[Config.SafeKey].JString? && |cfg[Config.SafeKey].s| == 1
    ensures r == Some(cfg[Config.SafeKey].s[0] as int)
  {
    Config.WellFormedSafeKey(cfg);
    var name := cfg[Config.SafeKey].s;
    StripOfTrimmed(name);
    assert Upper(name) == name;
    ToQtKey(name)
  }

  /** `str(unlock_passcode)`: at least four characters. */
  function Passcode(cfg: map<Config.Field, JsonValue>): (p: string)
    requires Config.WellFormed(cfg)
    ensures |p| >= 4 && cfg[Config.UnlockPasscode] == JString(p)
  {
    Config.WellFormedPasscode(cfg);
    Str(cfg[Config.UnlockPasscode])
  }

  /** The UTF-16 code units of one character: two for a character above U+FFFF, which Qt stores as a surrogate pair. */
  function CharUnits(c: char): (n: nat)
    ensures n == 1 || n == 2
    ensures n == 2 <==> c as int > 0xFFFF
  {
    if c as int > 0xFFFF then 2 else 1
  }

  /** The length Qt gives a text (`QString::length()`): its UTF-16 code units. */
  function Utf16Length(s: string): (n: nat)
    ensures |s| <= n <= 2 * |s|
  {
    if s == [] then 0 else Utf16Length(s[..|s| - 1]) + CharUnits(s[|s| - 1])
  }

  /**
   * What a line edit limited to `MaxPassLength` UTF-16 code units keeps of a
   * text: the longest prefix that fits.
   */
  function Truncated(text: string): (t: string)
    ensures t <= text && Utf16Length(t) <= MaxPassLength
    ensures Utf16Length(text) <= MaxPassLength ==> t == text
    ensures |t| < |text| ==> Utf16Length(text[..|t| + 1]) > MaxPassLength
  {
    if Utf16Length(text) <= MaxPassLength then text
    else
      var t := Truncated(text[..|text| - 1]);
      (if |t| < |text| - 1 then
         assert text[..|text| - 1][..|t| + 1] == text[..|t| + 1];
         t
       else
         assert text[..|t| + 1] == text;
         t)
  }

  /**
   * A validated passcode may be longer than the passcode field accepts;
   * then no text the field can hold matches it.
   */
  lemma LongPasscodeNeverMatches(cfg: map<Config.Field, JsonValue>, text: string)
    requires Config.WellFormed(cfg) && Utf16Length(Passcode(cfg)) > MaxPassLength
    ensures ClassifyPasscode(Truncated(text), Passcode(cfg)) == Violation(WrongPasscode)
  {
  }

  /** Validation keeps any passcode of four characters or more, however long. */
  lemma LongPasscodeValidates(config: map<string, JsonValue>, p: string)
    requires Config.Key(Config.UnlockPasscode) in config && config[Config.Key(Config.UnlockPasscode)] == JString(p)
    requires Utf16Length(p) > MaxPassLength
    ensures Config.Sanitize(config)[Config.UnlockPasscode] == JString(p)
  {
    Config.AllFieldsListed(Config.UnlockPasscode);
  }

  /** A text of characters above U+FFFF takes two code units per character. */
  lemma {:induction false} WideUtf16Length(s: string)
    requires forall k :: 0 <= k < |s| ==> s[k] as int > 0xFFFF
    ensures Utf16Length(s) == 2 * |s|
  {
    if s != [] {
      WideUtf16Length(s[..|s| - 1]);
    }
  }

  /**
   * Thirty-three emoji are 33 characters, enough for validation, but 66
   * code units, more than the passcode field holds: such a passcode is
   * kept and can never be entered.
   */
  lemma WidePasscodeLockedOut(config: map<string, JsonValue>, p: string, text: string)
    requires |p| == 33 && forall k :: 0 <= k < |p| ==> p[k] == '\U{1F600}'
    requires Config.Key(Config.UnlockPasscode) in config && config[Config.Key(Config.UnlockPasscode)] == JString(p)
    ensures |p| <= MaxPassLength && Utf16Length(p) > MaxPassLength
    ensures Config.Sanitize(config)[Config.UnlockPasscode] == JString(p)
    ensures ClassifyPasscode(Truncated(text), p) == Violation(WrongPasscode)
  {
    WideUtf16Length(p);
    LongPasscodeValidates(config, p);
  }

  /** The settings the window takes from `CONFIG`. */
  datatype Settings = Settings(
    cooldown: int,
    mode: UnlockMode,
    unlockKeyCode: Option<int>,
    safeKeyCode: Option<int>,
    passcode: string,
    securityEnabled: bool,
    disableTaskMgr: bool,
    blockSystemKeys: bool,
    mouseTriggers: bool)

  /** How `__init__`, `_unlock` and the pointer handlers read a validated configuration. */
  function SettingsOf(cfg: map<Config.Field, JsonValue>): (s: Settings)
    requires Config.WellFormed(cfg)
    ensures s.cooldown >= 0 && |s.passcode| >= 4 && s.safeKeyCode.Some?
  {
    Config.AllFieldsListed(Config.SecurityModeEnabled);
    Config.AllFieldsListed(Config.DisableTaskManager);
    Config.AllFieldsListed(Config.BlockSystemKeys);
    Config.AllFieldsListed(Config.MouseTriggersEnabled);
    Settings(
      Cooldown(cfg), Mode(cfg), UnlockKeyCode(cfg), SafeKeyCode(cfg), Passcode(cfg),
      Enabled(cfg, Config.SecurityModeEnabled), Enabled(cfg, Config.DisableTaskManager),
      Enabled(cfg, Config.BlockSystemKeys), Enabled(cfg, Config.MouseTriggersEnabled))
  }

  /** With the default configuration F12 unlocks. */
  lemma DefaultUnlockKey()
    ensures Config.WellFormed(Config.Defaults)
    ensures UnlockKeyCode(Config.Defaults) == Some(KeyF12)
  {
    Config.DefaultsWellFormed();
    Config.AllFieldsListed(Config.UnlockKey);
    F12Named();
  }

  /** With the default configuration Y is the safe key. */
  lemma DefaultSafeKey()
    ensures Config.WellFormed(Config.Defaults)
    ensures SafeKeyCode(Config.Defaults) == Some('Y' as int)
  {
    Config.DefaultsWellFormed();
    Config.AllFieldsListed(Config.SafeKey);
  }

  /** With the default configuration: key mode, a 30-second cooldown and the passcode "123456". */
  lemma DefaultMode()
    ensures Config.WellFormed(Config.Defaults)
    ensures Mode(Config.Defaults) == KeyMode && Cooldown(Config.Defaults) == 30 && Passcode(Config.Defaults) == "123456"
  {
    Config.DefaultsWellFormed();
    Config.AllFieldsListed(Config.UnlockMode);
    Config.AllFieldsListed(Config.CooldownSeconds);
    Config.AllFieldsListed(Config.UnlockPasscode);
  }

  /** With the default configuration security mode installs the hook but leaves the task manager alone, and pointer input counts. */
  lemma DefaultSwitches()
    ensures Config.WellFormed(Config.Defaults)
    ensures Enabled(Config.Defaults, Config.SecurityModeEnabled) && !Enabled(Config.Defaults, Config.DisableTaskManager)
    ensures Enabled(Config.Defaults, Config.BlockSystemKeys) && Enabled(Config.Defaults, Config.MouseTriggersEnabled)
  {
    Config.DefaultsWellFormed();
    Config.AllFieldsListed(Config.SecurityModeEnabled);
    Config.AllFieldsListed(Config.DisableTaskManager);
    Config.AllFieldsListed(Config.BlockSystemKeys);
    Config.AllFieldsListed(Config.MouseTriggersEnabled);
  }

  class LockWindow {
    /** The process-wide hook handle and registry policy. */
    const os: HookSystem
    const cooldown: int
    const mode: UnlockMode
    const unlockKeyCode: Option<int>
    const safeKeyCode: Option<int>
    const unlockPasscode: string
    const securityEnabled: bool
    /** `disable_task_manager`, read again by `_unlock`. */
    const disableTaskMgr: bool
    const blockSystemKeys: bool
    const mouseTriggers: bool

    var unlocked: bool
    var lastCaptureTs: int
    var hookInstalled: bool
    /** The text of the passcode field. */
    var passInput: string
    /** The window has been closed. */
    var closed: bool
    /** The capture-and-notify runs started, oldest first. */
    var notices: seq<Notice>
    /** The times of every wrong input, fired or suppressed, oldest first. */
    ghost var attempts: seq<int>

    ghost predicate Valid()
      reads this, os
    {
      && cooldown >= 0
      && (closed ==> unlocked)
      && (hookInstalled ==> securityEnabled && blockSystemKeys)
      && (os.HookActive() <==> hookInstalled && !unlocked)
      && |os.released| == (if unlocked && hookInstalled then 1 else 0)
      && Utf16Length(passInput) <= MaxPassLength
      && lastCaptureTs == LastCapture(cooldown, 0, attempts)
      && Times(notices) == Fired(cooldown, 0, attempts)
    }

    /** The lock state, hook bookkeeping and window state are as before. */
    twostate predicate SessionUnchanged()
      reads this
    {
      unlocked == old(unlocked) && hookInstalled == old(hookInstalled) && closed == old(closed)
    }

    /** The hook handle and the registry policy are as before. */
    twostate predicate SystemUnchanged()
      reads this, os
    {
      os.hookId == old(os.hookId) && os.taskManagerDisabled == old(os.taskManagerDisabled) && os.released == old(os.released)
    }

    /** No wrong input was handled. */
    twostate predicate CapturesUnchanged()
      reads this
    {
      lastCaptureTs == old(lastCaptureTs) && attempts == old(attempts) && notices == old(notices)
    }

    /** A wrong input at `now` was handled: it fired, and was recorded, exactly when the cooldown had passed. */
    twostate predicate Triggered(reason: string, now: int)
      reads this
    {
      var fired := Fires(cooldown, old(lastCaptureTs), now);
      && lastCaptureTs == (if fired then now else old(lastCaptureTs))
      && attempts == old(attempts) + [now]
      && notices == old(notices) + (if fired then [Notice(reason, now)] else [])
    }

    /**
     * `_unlock` ran: the window is unlocked and closed, the task manager
     * policy was removed if it was set up and the key could be written, and
     * a live hook was released, once.
     */
    twostate predicate UnlockedFrom(keyWritable: bool)
      reads this, os
    {
      && unlocked && closed
      && hookInstalled == old(hookInstalled)
      && !os.HookActive()
      && os.released == old(os.released) + (if old(os.hookId) != 0 then [old(os.hookId)] else [])
      && os.taskManagerDisabled
         == (if securityEnabled && disableTaskMgr then old(os.taskManagerDisabled) && !keyWritable else old(os.taskManagerDisabled))
    }

    /**
     * `__init__`: reads the settings, and when security mode is on, sets the
     * task manager policy (if configured) and installs the keyboard hook (if
     * configured); `hook_installed` records whether the install succeeded.
     */
    constructor(settings: Settings, os: HookSystem, hook: InstallOutcome, registryWriteOk: bool)
      requires settings.cooldown >= 0
      requires !os.HookActive() && os.released == []
      modifies os
      ensures Valid() && this.os == os
      ensures cooldown == settings.cooldown && mode == settings.mode && unlockPasscode == settings.passcode
      ensures unlockKeyCode == settings.unlockKeyCode && safeKeyCode == settings.safeKeyCode
      ensures securityEnabled == settings.securityEnabled && disableTaskMgr == settings.disableTaskMgr
      ensures blockSystemKeys == settings.blockSystemKeys && mouseTriggers == settings.mouseTriggers
      ensures !unlocked && !closed && lastCaptureTs == 0 && passInput == ""
      ensures notices == [] && attempts == []
      ensures hookInstalled <==> securityEnabled && blockSystemKeys && hook.Handle? && hook.h != 0
      ensures os.taskManagerDisabled == (old(os.taskManagerDisabled) || (securityEnabled && disableTaskMgr && registryWriteOk))
      ensures os.released == []
    {
      this.os := os;
      cooldown := settings.cooldown;
      mode := settings.mode;
      unlockKeyCode := settings.unlockKeyCode;
      safeKeyCode := settings.safeKeyCode;
      unlockPasscode := settings.passcode;
      securityEnabled := settings.securityEnabled;
      disableTaskMgr := settings.disableTaskMgr;
      blockSystemKeys := settings.blockSystemKeys;
      mouseTriggers := settings.mouseTriggers;
      unlocked := false;
      lastCaptureTs := 0;
      hookInstalled := false;
      passInput := "";
      closed := false;
      notices := [];
      attempts := [];
      new;
      if securityEnabled {
        if disableTaskMgr {
          os.DisableTaskManager(registryWriteOk);
        }
        if blockSystemKeys {
          hookInstalled := os.InstallKeyboardHook(hook);
        }
      }
    }

    /**
     * `_trigger_wrong_input`: a wrong input within the cooldown of the last
     * capture is dropped; otherwise the capture time moves to `now` and a
     * capture-and-notify run starts.
     */
    method TriggerWrongInput(reason: string, now: int) returns (fired: bool)
      requires Valid()
      modifies this
      ensures Valid()
      ensures fired <==> now - old(lastCaptureTs) >= cooldown
      ensures Triggered(reason, now) && SessionUnchanged() && passInput == old(passInput)
    {
      HandleOne(cooldown, 0, attempts, now);
      assert Times(notices + [Notice(reason, now)]) == Times(notices) + [now];
      if now - lastCaptureTs < cooldown {
        fired := false;
      } else {
        lastCaptureTs := now;
        notices := notices + [Notice(reason, now)];
        fired := true;
      }
      attempts := attempts + [now];
    }

    /** `closeEvent`: refused while locked; once unlocked, releases the hook if one is still held, and closes. */
    method CloseEvent() returns (accepted: bool)
      requires Valid()
      modifies this, os
      ensures Valid()
      ensures accepted == old(unlocked)
      ensures closed == (old(closed) || old(unlocked))
      ensures SystemUnchanged()
      ensures SessionUnchanged() || (accepted && !old(closed))
      ensures unlocked == old(unlocked) && hookInstalled == old(hookInstalled)
      ensures CapturesUnchanged() && passInput == old(passInput)
    {
      if !unlocked {
        accepted := false;
      } else {
        if securityEnabled && hookInstalled {
          os.UninstallKeyboardHook();
          assert os.released == old(os.released) + [];
        }
        closed := true;
        accepted := true;
      }
    }

    /**
     * `_unlock`: marks the window unlocked, removes the task manager policy
     * and the hook when security mode set them up, and closes the window.
     * It is not guarded: a second call repeats the registry step.
     */
    method Unlock(keyWritable: bool)
      requires Valid()
      modifies this, os
      ensures Valid()
      ensures UnlockedFrom(keyWritable) && CapturesUnchanged() && passInput == old(passInput)
    {
      unlocked := true;
      if securityEnabled {
        if disableTaskMgr {
          os.EnableTaskManager(keyWritable);
        }
        if hookInstalled {
          os.UninstallKeyboardHook();
        }
      }
      var accepted := CloseEvent();
    }

    /** `keyPressEvent`, with the decision made by `ClassifyKey`. */
    method KeyPressEvent(key: int, autoRepeat: bool, now: int, keyWritable: bool)
      requires Valid()
      modifies this, os
      ensures Valid()
      ensures passInput == old(passInput)
      ensures unlocked && !old(unlocked) ==> mode == KeyMode && unlockKeyCode == Some(key) && safeKeyCode != Some(key)
      ensures var a := ClassifyKey(mode, unlockKeyCode, safeKeyCode, key, autoRepeat);
        && (a.Unlock? ==> UnlockedFrom(keyWritable) && CapturesUnchanged())
        && (a.Violation? ==> Triggered(ReasonText(a.reason), now) && SessionUnchanged() && SystemUnchanged())
        && (a == Ignore ==> CapturesUnchanged() && SessionUnchanged() && SystemUnchanged())
    {
      var a := ClassifyKey(mode, unlockKeyCode, safeKeyCode, key, autoRepeat);
      match a
      case Unlock =>
        Unlock(keyWritable);
      case Violation(r) =>
        var fired := TriggerWrongInput(ReasonText(r), now);
      case Ignore =>
    }

    /** `mousePressEvent` (`p == Press`) and `mouseMoveEvent` (`p == Move`). */
    method PointerEvent(p: Pointer, now: int)
      requires Valid()
      modifies this
      ensures Valid()
      ensures SessionUnchanged() && passInput == old(passInput)
      ensures var a := ClassifyPointer(mode, mouseTriggers, p);
        && (a.Violation? ==> Triggered(ReasonText(a.reason), now))
        && (a == Ignore ==> CapturesUnchanged())
    {
      var a := ClassifyPointer(mode, mouseTriggers, p);
      if a.Violation? {
        var fired := TriggerWrongInput(ReasonText(a.reason), now);
      }
    }

    /**
     * Text typed or pasted into the passcode field, which keeps at most
     * `MaxPassLength` UTF-16 code units. The field is shown, and takes the focus,
     * only in passcode mode.
     */
    method SetPassInput(text: string)
      requires Valid() && mode == PasscodeMode
      modifies this
      ensures Valid()
      ensures passInput == Truncated(text)
      ensures SessionUnchanged() && CapturesUnchanged()
    {
      passInput := Truncated(text);
    }

    /**
     * `_on_pass_enter`: the stored passcode unlocks; anything else clears
     * the field and is a wrong input. Enter reaches the field only in
     * passcode mode, where it is visible.
     */
    method OnPassEnter(now: int, keyWritable: bool)
      requires Valid() && mode == PasscodeMode
      modifies this, os
      ensures Valid()
      ensures var a := ClassifyPasscode(old(passInput), unlockPasscode);
        && (a.Unlock? ==> UnlockedFrom(keyWritable) && CapturesUnchanged() && passInput == old(passInput))
        && (!a.Unlock? ==> passInput == "" && Triggered(ReasonText(WrongPasscode), now) && SessionUnchanged() && SystemUnchanged())
      ensures Utf16Length(unlockPasscode) > MaxPassLength ==> unlocked == old(unlocked)
    {
      if passInput == unlockPasscode {
        Unlock(keyWritable);
      } else {
        passInput := "";
        var fired := TriggerWrongInput(ReasonText(WrongPasscode), now);
      }
    }
  }
}
