/**
 * Configuration validation: `validate_config` starts from a copy of the
 * defaults and overrides a field only with a value that passes that field's
 * check, converting it the way the source does (`str`, `strip`, `upper`,
 * `int`).
 */
module Config {
  import opened Wrappers
  import opened PyStr
  import opened PyJson
  import opened QtKeys

  /** The fields of the configuration dictionary, in the order of its defaults. */
  datatype Field =
    | UnlockMode
    | UnlockKey
    | SafeKey
    | UnlockPasscode
    | CameraEnabled
    | AudioEnabled
    | AudioSeconds
    | ScreenshotEnabled
    | EmailEnabled
    | MailAttachMedia
    | CooldownSeconds
    | ShowConsentBanner
    | MouseTriggersEnabled
    | SecurityModeEnabled
    | DisableTaskManager
    | BlockSystemKeys
    | UiTheme
    | ShowAnimations
    | IncludeSystemInfo

  /** The dictionary key of each field. */
  function Key(f: Field): string {
    match f
    case UnlockMode => "unlock_mode"
    case UnlockKey => "unlock_key"
    case SafeKey => "safe_key"
    case UnlockPasscode => "unlock_passcode"
    case CameraEnabled => "camera_enabled"
    case AudioEnabled => "audio_enabled"
    case AudioSeconds => "audio_seconds"
    case ScreenshotEnabled => "screenshot_enabled"
    case EmailEnabled => "email_enabled"
    case MailAttachMedia => "mail_attach_media"
    case CooldownSeconds => "cooldown_seconds_between_captures"
    case ShowConsentBanner => "show_consent_banner"
    case MouseTriggersEnabled => "mouse_triggers_enabled"
    case SecurityModeEnabled => "security_mode_enabled"
    case DisableTaskManager => "disable_task_manager"
    case BlockSystemKeys => "block_system_keys"
    case UiTheme => "ui_theme"
    case ShowAnimations => "show_animations"
    case IncludeSystemInfo => "include_system_info"
  }

  /** The boolean settings, in the order `validate_config` walks them. */
  const BoolSettings: seq<Field> := [
    CameraEnabled, AudioEnabled, ScreenshotEnabled, EmailEnabled,
    MailAttachMedia, ShowConsentBanner, MouseTriggersEnabled,
    SecurityModeEnabled, DisableTaskManager, BlockSystemKeys,
    ShowAnimations, IncludeSystemInfo
  ]

  /** The default value of each field. */
  function Default(f: Field): JsonValue {
    match f
    case UnlockMode => JString("key")
    case UnlockKey => JString("F12")
    case SafeKey => JString("Y")
    case UnlockPasscode => JString("123456")
    case CameraEnabled => JBool(false)
    case AudioEnabled => JBool(false)
    case AudioSeconds => JInt(5)
    case ScreenshotEnabled => JBool(true)
    case EmailEnabled => JBool(false)
    case MailAttachMedia => JBool(true)
    case CooldownSeconds => JInt(30)
    case ShowConsentBanner => JBool(true)
    case MouseTriggersEnabled => JBool(true)
    case SecurityModeEnabled => JBool(true)
    case DisableTaskManager => JBool(false)
    case BlockSystemKeys => JBool(true)
    case UiTheme => JString("dark")
    case ShowAnimations => JBool(true)
    case IncludeSystemInfo => JBool(true)
  }

  /** Every field. */
  const AllFields: set<Field> := {
    UnlockMode, UnlockKey, SafeKey, UnlockPasscode, CameraEnabled,
    AudioEnabled, AudioSeconds, ScreenshotEnabled, EmailEnabled, MailAttachMedia,
    CooldownSeconds, ShowConsentBanner, MouseTriggersEnabled, SecurityModeEnabled, DisableTaskManager,
    BlockSystemKeys, UiTheme, ShowAnimations, IncludeSystemInfo
  }

  /** `DEFAULT_CONFIG`: every field with its default value. */
  const Defaults: map<Field, JsonValue> := map f | f in AllFields :: Default(f)

  lemma AllFieldsListed(f: Field)
    ensures f in AllFields && f in Defaults && Defaults[f] == Default(f)
  {
  }

  /** A boolean setting keeps an input value only when it is a JSON boolean. */
  function AcceptBool(v: JsonValue): Option<JsonValue> {
    if v.JBool? then Some(v) else None
  }

  /** `unlock_mode` keeps "key" or "passcode". */
  function AcceptUnlockMode(v: JsonValue): Option<JsonValue> {
    if v == JString("key") || v == JString("passcode") then Some(v) else None
  }

  /** `unlock_key` keeps `str(v).strip()` when the key table knows it, or when it is empty. */
  function AcceptUnlockKey(v: JsonValue): Option<JsonValue> {
    var key := Strip(Str(v));
    if ToQtKey(key).Some? || key == "" then Some(JString(key)) else None
  }

  /** `unlock_passcode` keeps `str(v)` when it has at least four characters. */
  function AcceptPasscode(v: JsonValue): Option<JsonValue> {
    var passcode := Str(v);
    if |passcode| >= 4 then Some(JString(passcode)) else None
  }

  /** `audio_seconds` keeps `int(v)` when the conversion succeeds and gives 1 to 60. */
  function AcceptAudioSeconds(v: JsonValue): Option<JsonValue> {
    match ToInt(v)
    case Some(seconds) => if 1 <= seconds <= 60 then Some(JInt(seconds)) else None
    case None => None
  }

  /** `cooldown_seconds_between_captures` keeps `int(v)` when the conversion succeeds and gives 0 to 3600. */
  function AcceptCooldown(v: JsonValue): Option<JsonValue> {
    match ToInt(v)
    case Some(cooldown) => if 0 <= cooldown <= 3600 then Some(JInt(cooldown)) else None
    case None => None
  }

  /** `ui_theme` keeps "dark" or "light". */
  function AcceptTheme(v: JsonValue): Option<JsonValue> {
    if v == JString("dark") || v == JString("light") then Some(v) else None
  }

  /** `safe_key` keeps `str(v).strip().upper()` when that is one letter or digit. */
  function AcceptSafeKey(v: JsonValue): Option<JsonValue> {
    var key := Upper(Strip(Str(v)));
    if |key| == 1 && IsAlnumChar(key[0]) then Some(JString(key)) else None
  }

  /** The check `validate_config` applies to each field. */
  function Check(name: Field): JsonValue -> Option<JsonValue> {
    match name
    case UnlockMode => AcceptUnlockMode
    case UnlockKey => AcceptUnlockKey
    case UnlockPasscode => AcceptPasscode
    case AudioSeconds => AcceptAudioSeconds
    case CooldownSeconds => AcceptCooldown
    case UiTheme => AcceptTheme
    case SafeKey => AcceptSafeKey
    case _ => AcceptBool
  }

  /**
   * The value `validate_config` stores for field `name` when the input holds
   * `v` there, or `None` when the check rejects `v` and the default stays.
   */
  function Accept(name: Field, v: JsonValue): Option<JsonValue> {
    Check(name)(v)
  }

  /** Every boolean setting has the boolean check. */
  lemma BoolSettingChecked(f: Field, v: JsonValue)
    requires f in BoolSettings
    ensures Accept(f, v) == AcceptBool(v)
  {
  }

  /** The validated value of one field: the accepted input value, else the default. */
  function Sanitized(config: map<string, JsonValue>, name: Field): JsonValue {
    if Key(name) in config && Accept(name, config[Key(name)]).Some? then Accept(name, config[Key(name)]).value
    else Default(name)
  }

  /** What `validate_config(config)` returns. */
  function Sanitize(config: map<string, JsonValue>): map<Field, JsonValue> {
    map name | name in Defaults :: Sanitized(config, name)
  }

  /** A configuration with exactly the default fields, each of which passes its own check unchanged. */
  predicate WellFormed(cfg: map<Field, JsonValue>) {
    && cfg.Keys == Defaults.Keys
    && forall name :: name in cfg ==> Accept(name, cfg[name]) == Some(cfg[name])
  }

  /** The order in which `validate_config` handles the fields. */
  const ValidationOrder: seq<Field> := [
    UnlockMode, UnlockKey, UnlockPasscode,
    CameraEnabled, AudioEnabled, ScreenshotEnabled, EmailEnabled,
    MailAttachMedia, ShowConsentBanner, MouseTriggersEnabled,
    SecurityModeEnabled, DisableTaskManager, BlockSystemKeys,
    ShowAnimations, IncludeSystemInfo,
    AudioSeconds, CooldownSeconds, UiTheme, SafeKey
  ]

  /** The place of each field in `ValidationOrder`. */
  function Position(f: Field): nat {
    match f
    case UnlockMode => 0
    case UnlockKey => 1
    case UnlockPasscode => 2
    case CameraEnabled => 3
    case AudioEnabled => 4
    case ScreenshotEnabled => 5
    case EmailEnabled => 6
    case MailAttachMedia => 7
    case ShowConsentBanner => 8
    case MouseTriggersEnabled => 9
    case SecurityModeEnabled => 10
    case DisableTaskManager => 11
    case BlockSystemKeys => 12
    case ShowAnimations => 13
    case IncludeSystemInfo => 14
    case AudioSeconds => 15
    case CooldownSeconds => 16
    case UiTheme => 17
    case SafeKey => 18
  }

  /** The dictionary after the field `f` has been handled. */
  function Handled(m: map<Field, JsonValue>, config: map<string, JsonValue>, f: Field): map<Field, JsonValue> {
    if Key(f) in config && Accept(f, config[Key(f)]).Some? then m[f := Accept(f, config[Key(f)]).value] else m
  }

  /** The dictionary after the fields `fs` have been handled, in order. */
  function HandledAll(m: map<Field, JsonValue>, config: map<string, JsonValue>, fs: seq<Field>): map<Field, JsonValue> {
    if fs == [] then m else Handled(HandledAll(m, config, fs[..|fs| - 1]), config, fs[|fs| - 1])
  }

  lemma HandledAllSnoc(m: map<Field, JsonValue>, config: map<string, JsonValue>, fs: seq<Field>, f: Field)
    ensures HandledAll(m, config, fs + [f]) == Handled(HandledAll(m, config, fs), config, f)
  {
    assert (fs + [f])[..|fs|] == fs;
  }

  lemma {:induction false} HandledAllAppend(m: map<Field, JsonValue>, config: map<string, JsonValue>, xs: seq<Field>, ys: seq<Field>)
    ensures HandledAll(m, config, xs + ys) == HandledAll(HandledAll(m, config, xs), config, ys)
    decreases |ys|
  {
    if ys == [] {
      assert xs + ys == xs;
    } else {
      var init := ys[..|ys| - 1];
      assert (xs + ys)[..|xs + ys| - 1] == xs + init;
      HandledAllAppend(m, config, xs, init);
    }
  }

  /** `validate_config`'s blocks, one after another, compute `Sanitize`. */
  lemma ValidationSteps(config: map<string, JsonValue>)
    ensures Sanitize(config)
         == Handled(Handled(Handled(Handled(
              HandledAll(Handled(Handled(Handled(Defaults, config, UnlockMode), config, UnlockKey), config, UnlockPasscode), config, BoolSettings),
              config, AudioSeconds), config, CooldownSeconds), config, UiTheme), config, SafeKey)
  {
    var leading := [UnlockMode, UnlockKey, UnlockPasscode];
    var trailing := [AudioSeconds, CooldownSeconds, UiTheme, SafeKey];
    HandledAllIsSanitize(config);
    assert ValidationOrder == leading + BoolSettings + trailing;
    HandledAllAppend(Defaults, config, leading + BoolSettings, trailing);
    HandledAllAppend(Defaults, config, leading, BoolSettings);
    HandledAllUnfold3(Defaults, config, UnlockMode, UnlockKey, UnlockPasscode);
    var middle := HandledAll(HandledAll(Defaults, config, leading), config, BoolSettings);
    HandledAllUnfold3(middle, config, AudioSeconds, CooldownSeconds, UiTheme);
    HandledAllSnoc(middle, config, [AudioSeconds, CooldownSeconds, UiTheme], SafeKey);
    assert [AudioSeconds, CooldownSeconds, UiTheme] + [SafeKey] == trailing;
  }

  lemma HandledAllUnfold3(m: map<Field, JsonValue>, config: map<string, JsonValue>, a: Field, b: Field, c: Field)
    ensures HandledAll(m, config, [a, b, c]) == Handled(Handled(Handled(m, config, a), config, b), config, c)
  {
    HandledAllSnoc(m, config, [], a);
    assert [] + [a] == [a];
    HandledAllSnoc(m, config, [a], b);
    assert [a] + [b] == [a, b];
    HandledAllSnoc(m, config, [a, b], c);
    assert [a, b] + [c] == [a, b, c];
  }

  /**
   * `m` holds, for the fields in `done`, their validated value and, for the
   * others, their default.
   */
  predicate Agrees(m: map<Field, JsonValue>, config: map<string, JsonValue>, done: seq<Field>) {
    forall f :: f in m && m[f] == if f in done then Sanitized(config, f) else Default(f)
  }

  lemma HandledAgrees(m: map<Field, JsonValue>, config: map<string, JsonValue>, done: seq<Field>, f: Field)
    requires Agrees(m, config, done) && f !in done
    ensures Agrees(Handled(m, config, f), config, done + [f])
  {
  }

  /** The copy of the defaults `validate_config` starts from has handled no field yet. */
  lemma DefaultsAgree(config: map<string, JsonValue>)
    ensures Agrees(Defaults, config, [])
  {
    forall f ensures f in Defaults && Defaults[f] == Default(f) {
      AllFieldsListed(f);
    }
  }

  /** Handling distinct fields one after another validates exactly those fields. */
  lemma {:induction false} HandledAllAgrees(config: map<string, JsonValue>, fs: seq<Field>)
    requires forall i, j :: 0 <= i < j < |fs| ==> fs[i] != fs[j]
    ensures Agrees(HandledAll(Defaults, config, fs), config, fs)
  {
    if fs == [] {
      DefaultsAgree(config);
    } else {
      var init := fs[..|fs| - 1];
      var last := fs[|fs| - 1];
      HandledAllAgrees(config, init);
      assert last !in init;
      HandledAgrees(HandledAll(Defaults, config, init), config, init, last);
      assert init + [last] == fs;
    }
  }

  /** Each field is handled once, and every field is handled. */
  lemma ValidationOrderComplete()
    ensures forall i, j :: 0 <= i < j < |ValidationOrder| ==> ValidationOrder[i] != ValidationOrder[j]
    ensures forall f :: f in ValidationOrder
  {
    PositionsOfOrder();
    forall f ensures f in ValidationOrder {
      FieldAtPosition(f);
    }
  }

  lemma PositionsOfOrder()
    ensures forall i :: 0 <= i < |ValidationOrder| ==> Position(ValidationOrder[i]) == i
  {
  }

  lemma FieldAtPosition(f: Field)
    ensures Position(f) < |ValidationOrder| && ValidationOrder[Position(f)] == f
  {
  }

  /** Handling every field in the source's order yields the validated configuration. */
  lemma HandledAllIsSanitize(config: map<string, JsonValue>)
    ensures HandledAll(Defaults, config, ValidationOrder) == Sanitize(config)
  {
    ValidationOrderComplete();
    HandledAllAgrees(config, ValidationOrder);
    AgreeingIsSanitize(HandledAll(Defaults, config, ValidationOrder), config);
  }

  /** A dictionary holding every field with its validated value is the validated configuration. */
  lemma AgreeingIsSanitize(m: map<Field, JsonValue>, config: map<string, JsonValue>)
    requires Agrees(m, config, ValidationOrder)
    requires forall f :: f in ValidationOrder
    ensures m == Sanitize(config)
  {
    forall f ensures f in Defaults && f in m && m[f] == Sanitize(config)[f] {
      AllFieldsListed(f);
    }
    assert m.Keys == Sanitize(config).Keys;
  }

  /** The `unlock_mode` block of `validate_config`. */
  method ValidateUnlockMode(config: map<string, JsonValue>, m: map<Field, JsonValue>) returns (validated: map<Field, JsonValue>)
    ensures validated == Handled(m, config, UnlockMode)
  {
    validated := m;
    if Key(UnlockMode) in config && (config[Key(UnlockMode)] == JString("key") || config[Key(UnlockMode)] == JString("passcode")) {
      validated := validated[UnlockMode := config[Key(UnlockMode)]];
    } else if Key(UnlockMode) in config {
      assert AcceptUnlockMode(config[Key(UnlockMode)]) == None;
    }
  }

  /** The `unlock_key` block of `validate_config`. */
  method ValidateUnlockKey(config: map<string, JsonValue>, m: map<Field, JsonValue>) returns (validated: map<Field, JsonValue>)
    ensures validated == Handled(m, config, UnlockKey)
  {
    validated := m;
    if Key(UnlockKey) in config {
      var key := Strip(Str(config[Key(UnlockKey)]));
      if ToQtKey(key).Some? || key == "" {
        assert AcceptUnlockKey(config[Key(UnlockKey)]) == Some(JString(key));
        validated := validated[UnlockKey := JString(key)];
      } else {
        assert AcceptUnlockKey(config[Key(UnlockKey)]) == None;
      }
    }
  }

  /** The `unlock_passcode` block of `validate_config`. */
  method ValidatePasscode(config: map<string, JsonValue>, m: map<Field, JsonValue>) returns (validated: map<Field, JsonValue>)
    ensures validated == Handled(m, config, UnlockPasscode)
  {
    validated := m;
    if Key(UnlockPasscode) in config {
      var passcode := Str(config[Key(UnlockPasscode)]);
      if |passcode| >= 4 {
        assert AcceptPasscode(config[Key(UnlockPasscode)]) == Some(JString(passcode));
        validated := validated[UnlockPasscode := JString(passcode)];
      } else {
        assert AcceptPasscode(config[Key(UnlockPasscode)]) == None;
      }
    }
  }

  /** One pass of the loop of `validate_config` over the boolean settings. */
  method ValidateBool(config: map<string, JsonValue>, m: map<Field, JsonValue>, setting: Field) returns (validated: map<Field, JsonValue>)
    requires setting in BoolSettings
    ensures validated == Handled(m, config, setting)
  {
    validated := m;
    if Key(setting) in config {
      var v := config[Key(setting)];
      BoolSettingChecked(setting, v);
      if v.JBool? {
        validated := validated[setting := v];
      }
    }
  }

  /** The `audio_seconds` block of `validate_config`. */
  method ValidateAudioSeconds(config: map<string, JsonValue>, m: map<Field, JsonValue>) returns (validated: map<Field, JsonValue>)
    ensures validated == Handled(m, config, AudioSeconds)
  {
    validated := m;
    if Key(AudioSeconds) in config {
      var seconds := ToInt(config[Key(AudioSeconds)]);
      if seconds.Some? && 1 <= seconds.value <= 60 {
        assert AcceptAudioSeconds(config[Key(AudioSeconds)]) == Some(JInt(seconds.value));
        validated := validated[AudioSeconds := JInt(seconds.value)];
      } else {
        assert AcceptAudioSeconds(config[Key(AudioSeconds)]) == None;
      }
    }
  }

  /** The `cooldown_seconds_between_captures` block of `validate_config`. */
  method ValidateCooldown(config: map<string, JsonValue>, m: map<Field, JsonValue>) returns (validated: map<Field, JsonValue>)
    ensures validated == Handled(m, config, CooldownSeconds)
  {
    validated := m;
    if Key(CooldownSeconds) in config {
      var cooldown := ToInt(config[Key(CooldownSeconds)]);
      if cooldown.Some? && 0 <= cooldown.value <= 3600 {
        assert AcceptCooldown(config[Key(CooldownSeconds)]) == Some(JInt(cooldown.value));
        validated := validated[CooldownSeconds := JInt(cooldown.value)];
      } else {
        assert AcceptCooldown(config[Key(CooldownSeconds)]) == None;
      }
    }
  }

  /** The `ui_theme` block of `validate_config`. */
  method ValidateTheme(config: map<string, JsonValue>, m: map<Field, JsonValue>) returns (validated: map<Field, JsonValue>)
    ensures validated == Handled(m, config, UiTheme)
  {
    validated := m;
    if Key(UiTheme) in config && (config[Key(UiTheme)] == JString("dark") || config[Key(UiTheme)] == JString("light")) {
      validated := validated[UiTheme := config[Key(UiTheme)]];
    } else if Key(UiTheme) in config {
      assert AcceptTheme(config[Key(UiTheme)]) == None;
    }
  }

  /** The `safe_key` block of `validate_config`. */
  method ValidateSafeKey(config: map<string, JsonValue>, m: map<Field, JsonValue>) returns (validated: map<Field, JsonValue>)
    ensures validated == Handled(m, config, SafeKey)
  {
    validated := m;
    if Key(SafeKey) in config {
      var key := Upper(Strip(Str(config[Key(SafeKey)])));
      if |key| == 1 && IsAlnumChar(key[0]) {
        assert AcceptSafeKey(config[Key(SafeKey)]) == Some(JString(key));
        validated := validated[SafeKey := JString(key)];
      } else {
        assert AcceptSafeKey(config[Key(SafeKey)]) == None;
      }
    }
  }

  /**
   * `validate_config`: the returned dictionary has exactly the default keys,
   * and each field is the input's (converted) value when it passes the
   * field's check and the default otherwise.
   */
  method ValidateConfig(config: map<string, JsonValue>) returns (validated: map<Field, JsonValue>)
    ensures validated.Keys == Defaults.Keys
    ensures forall name :: name in Defaults ==> validated[name] == Sanitized(config, name)
    ensures validated == Sanitize(config)
  {
    validated := ValidateUnlockMode(config, Defaults);
    validated := ValidateUnlockKey(config, validated);
    validated := ValidatePasscode(config, validated);
    ghost var start := validated;
    for i := 0 to |BoolSettings|
      invariant validated == HandledAll(start, config, BoolSettings[..i])
    {
      var setting := BoolSettings[i];
      validated := ValidateBool(config, validated, setting);
      HandledAllSnoc(start, config, BoolSettings[..i], setting);
      PrefixSnoc(BoolSettings, i);
    }
    assert BoolSettings[..|BoolSettings|] == BoolSettings;
    validated := ValidateAudioSeconds(config, validated);
    validated := ValidateCooldown(config, validated);
    validated := ValidateTheme(config, validated);
    validated := ValidateSafeKey(config, validated);
    ValidationSteps(config);
    forall name | name in Defaults ensures name in validated && validated[name] == Sanitized(config, name) {
      AllFieldsListed(name);
    }
  }

  lemma PrefixSnoc(s: seq<Field>, i: nat)
    requires i < |s|
    ensures s[..i + 1] == s[..i] + [s[i]]
  {
  }

  /** A value a check accepts is accepted again, unchanged: validating twice changes nothing. */
  lemma AcceptStable(name: Field, v: JsonValue)
    requires Accept(name, v).Some?
    ensures Accept(name, Accept(name, v).value) == Accept(name, v)
  {
    match name
    case UnlockKey => UnlockKeyStable(v);
    case SafeKey => SafeKeyStable(v);
    case _ =>
  }

  lemma UnlockKeyStable(v: JsonValue)
    requires AcceptUnlockKey(v).Some?
    ensures AcceptUnlockKey(AcceptUnlockKey(v).value) == AcceptUnlockKey(v)
  {
    var key := Strip(Str(v));
    StripIdempotent(Str(v));
    assert Strip(Str(JString(key))) == key;
  }

  lemma SafeKeyStable(v: JsonValue)
    requires AcceptSafeKey(v).Some?
    ensures AcceptSafeKey(AcceptSafeKey(v).value) == AcceptSafeKey(v)
  {
    var stripped := Strip(Str(v));
    var key := Upper(stripped);
    StripOfTrimmed(key);
    UpperIdempotent(stripped);
    assert Upper(Strip(Str(JString(key)))) == key;
  }

  lemma DefaultUnlockKeyAccepted()
    ensures AcceptUnlockKey(JString("F12")) == Some(JString("F12"))
  {
    StripOfTrimmed("F12");
    FunctionKeyNames(12);
    assert NatToString(12) == "12";
    assert "F" + "12" == "F12";
    assert Upper("F12") == "F12";
  }

  lemma DefaultSafeKeyAccepted()
    ensures AcceptSafeKey(JString("Y")) == Some(JString("Y"))
  {
    StripOfTrimmed("Y");
    assert Upper("Y") == "Y";
  }

  lemma DefaultAccepted(name: Field)
    ensures Accept(name, Default(name)) == Some(Default(name))
  {
    match name
    case UnlockKey => DefaultUnlockKeyAccepted();
    case SafeKey => DefaultSafeKeyAccepted();
    case _ =>
  }

  /** `DEFAULT_CONFIG` passes every check of `validate_config`. */
  lemma DefaultsWellFormed()
    ensures WellFormed(Defaults)
  {
    DefaultUnlockKeyAccepted();
    DefaultSafeKeyAccepted();
    forall name | name in Defaults ensures Accept(name, Defaults[name]) == Some(Defaults[name]) {
      AllFieldsListed(name);
      DefaultAccepted(name);
    }
  }

  /** Whatever the input, `validate_config` returns a configuration that passes its own checks. */
  lemma SanitizeWellFormed(config: map<string, JsonValue>)
    ensures WellFormed(Sanitize(config))
  {
    DefaultsWellFormed();
    forall name | name in Defaults ensures Accept(name, Sanitized(config, name)) == Some(Sanitized(config, name)) {
      AllFieldsListed(name);
      if Key(name) in config && Accept(name, config[Key(name)]).Some? {
        AcceptStable(name, config[Key(name)]);
      }
    }
  }

  /** `d` holds the fields of `cfg` under their keys, as `save_config` writes them (other keys may be present). */
  predicate Stores(d: map<string, JsonValue>, cfg: map<Field, JsonValue>) {
    forall f :: f in cfg ==> Key(f) in d && d[Key(f)] == cfg[f]
  }

  /** Validating a dictionary that holds a configuration passing every check returns that configuration. */
  lemma SanitizeFixesWellFormed(d: map<string, JsonValue>, cfg: map<Field, JsonValue>)
    requires WellFormed(cfg) && Stores(d, cfg)
    ensures Sanitize(d) == cfg
  {
    forall name | name in Defaults ensures Sanitize(d)[name] == cfg[name] {
      assert Key(name) in d && d[Key(name)] == cfg[name];
    }
  }

  /** Validating what was saved from a validated configuration gives that configuration back. */
  lemma SanitizeIdempotent(config: map<string, JsonValue>, saved: map<string, JsonValue>)
    requires Stores(saved, Sanitize(config))
    ensures Sanitize(saved) == Sanitize(config)
  {
    SanitizeWellFormed(config);
    SanitizeFixesWellFormed(saved, Sanitize(config));
  }

  // What every validated configuration guarantees the lock window, field by field.

  lemma WellFormedChoices(cfg: map<Field, JsonValue>)
    requires WellFormed(cfg)
    ensures cfg[UnlockMode] == JString("key") || cfg[UnlockMode] == JString("passcode")
    ensures cfg[UiTheme] == JString("dark") || cfg[UiTheme] == JString("light")
  {
    AllFieldsListed(UnlockMode);
    AllFieldsListed(UiTheme);
    assert AcceptUnlockMode(cfg[UnlockMode]) == Some(cfg[UnlockMode]);
    assert AcceptTheme(cfg[UiTheme]) == Some(cfg[UiTheme]);
  }

  lemma WellFormedUnlockKey(cfg: map<Field, JsonValue>)
    requires WellFormed(cfg)
    ensures cfg[UnlockKey].JString? && Strip(cfg[UnlockKey].s) == cfg[UnlockKey].s
    ensures cfg[UnlockKey].JString? && (cfg[UnlockKey].s == "" || ToQtKey(cfg[UnlockKey].s).Some?)
  {
    AllFieldsListed(UnlockKey);
    assert AcceptUnlockKey(cfg[UnlockKey]) == Some(cfg[UnlockKey]);
  }

  lemma WellFormedPasscode(cfg: map<Field, JsonValue>)
    requires WellFormed(cfg)
    ensures cfg[UnlockPasscode].JString? && |cfg[UnlockPasscode].s| >= 4
  {
    AllFieldsListed(UnlockPasscode);
    assert AcceptPasscode(cfg[UnlockPasscode]) == Some(cfg[UnlockPasscode]);
  }

  lemma WellFormedBools(cfg: map<Field, JsonValue>)
    requires WellFormed(cfg)
    ensures forall f :: f in BoolSettings ==> cfg[f].JBool?
  {
    forall f | f in BoolSettings ensures cfg[f].JBool? {
      AllFieldsListed(f);
      BoolSettingChecked(f, cfg[f]);
    }
  }

  lemma WellFormedAudioSeconds(cfg: map<Field, JsonValue>)
    requires WellFormed(cfg)
    ensures cfg[AudioSeconds].JInt? && 1 <= cfg[AudioSeconds].i <= 60
  {
    AllFieldsListed(AudioSeconds);
    assert AcceptAudioSeconds(cfg[AudioSeconds]) == Some(cfg[AudioSeconds]);
  }

  lemma WellFormedCooldown(cfg: map<Field, JsonValue>)
    requires WellFormed(cfg)
    ensures cfg[CooldownSeconds].JInt? && 0 <= cfg[CooldownSeconds].i <= 3600
  {
    AllFieldsListed(CooldownSeconds);
    assert AcceptCooldown(cfg[CooldownSeconds]) == Some(cfg[CooldownSeconds]);
  }

  lemma WellFormedSafeKey(cfg: map<Field, JsonValue>)
    requires WellFormed(cfg)
    ensures cfg[SafeKey].JString? && |cfg[SafeKey].s| == 1
    ensures cfg[SafeKey].JString? && |cfg[SafeKey].s| == 1 && (IsDigit(cfg[SafeKey].s[0]) || IsAsciiUpper(cfg[SafeKey].s[0]))
  {
    AllFieldsListed(SafeKey);
    assert AcceptSafeKey(cfg[SafeKey]) == Some(cfg[SafeKey]);
    var key := Upper(Strip(Str(cfg[SafeKey])));
    assert key == cfg[SafeKey].s;
    assert UpperChar(Strip(Str(cfg[SafeKey]))[0]) == key[0];
  }

  /** `str(None)` is "None", which is four characters long: a JSON `null` passcode becomes the passcode "None". */
  lemma NullPasscodeAccepted()
    ensures Accept(UnlockPasscode, JNull) == Some(JString("None"))
  {
  }

  /** `int(True)` is 1: a JSON `true` recording length is accepted as one second. */
  lemma TrueAudioSecondsAccepted()
    ensures Accept(AudioSeconds, JBool(true)) == Some(JInt(1))
  {
  }

  /** A passcode given as a JSON number is stored as its decimal text. */
  lemma NumericPasscodeAccepted(n: int)
    requires n >= 1000
    ensures Accept(UnlockPasscode, JInt(n)) == Some(JString(IntToString(n)))
  {
    assert IntToString(n) == NatToString(n);
    DigitCount(n);
  }

  lemma {:induction false} DigitCount(n: nat)
    requires n >= 1000
    ensures |NatToString(n)| >= 4
  {
    assert NatToString(n) == NatToString(n / 10) + [DigitChar(n % 10)];
    assert NatToString(n / 10) == NatToString(n / 100) + [DigitChar(n / 10 % 10)];
    assert NatToString(n / 100) == NatToString(n / 1000) + [DigitChar(n / 100 % 10)];
  }
}
