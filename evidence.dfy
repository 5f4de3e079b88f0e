/**
 * What the lock window does after a wrong input fired: capture what is
 * enabled (screenshot, camera frame, audio clip), assemble the subject,
 * body and attachments of a notification, and decide whether `send_email`
 * hands a message to the SMTP server, and which one.
 */
module Evidence {
  import opened Wrappers
  import opened PyJson

  /** The settings the capture functions and `send_email` read from `CONFIG`. */
  datatype EvidenceSettings = EvidenceSettings(
    screenshot: bool,
    camera: bool,
    audio: bool,
    systemInfo: bool,
    email: bool,
    attachMedia: bool)

  /**
   * `capture_screenshot`, `capture_snapshot` and `capture_audio`: nothing
   * when the setting is off, and otherwise the path of the file the device
   * produced, or nothing when the device failed.
   */
  function Captured(enabled: bool, device: Option<string>): (r: Option<string>)
    ensures r.Some? <==> enabled && device.Some?
    ensures r.Some? ==> r == device
  {
    if enabled then device else None
  }

  /** The list a capture adds to the attachments: its path, if it produced one. */
  function Attach(capture: Option<string>): (r: seq<string>)
    ensures |r| == (if capture.Some? then 1 else 0)
    ensures capture.Some? ==> r == [capture.value]
  {
    if capture.Some? then [capture.value] else []
  }

  /** The first three lines of a notification body: machine, time and reason. */
  function Header(host: string, when: string, reason: string): string {
    "Makine: " + host + "\nZaman: " + when + "\nNeden: " + reason + "\n"
  }

  /** `str(bool)` of one capture's result: "True" exactly when it produced a file, and "False" otherwise. */
  function FlagText(produced: bool): (t: string)
    ensures t == "True" <==> produced
    ensures t == "False" <==> !produced
  {
    Str(JBool(produced))
  }

  /** The line saying which captures produced a file. */
  function FlagsLine(shot: bool, img: bool, wav: bool): string {
    "Screenshot: " + FlagText(shot) + " | Kamera: " + FlagText(img) + " | Ses: " + FlagText(wav) + "\n"
  }

  /** The system information section, present when it is enabled. */
  function InfoSection(systemInfo: Option<string>): string {
    if systemInfo.Some? then "\n--- Sistem Bilgileri ---\n" + systemInfo.value + "\n" else ""
  }

  /** The closing line with the path of the activity log. */
  function Footer(logPath: string): string {
    "\nLog: " + logPath + "\n"
  }

  /** The body of a notification. */
  function Body(host: string, when: string, reason: string, shot: bool, img: bool, wav: bool, systemInfo: Option<string>, logPath: string): string {
    Header(host, when, reason) + FlagsLine(shot, img, wav) + InfoSection(systemInfo) + Footer(logPath)
  }

  /** The body starts with the machine, the time and the reason, and ends with the log path. */
  lemma BodyFrame(host: string, when: string, reason: string, shot: bool, img: bool, wav: bool, systemInfo: Option<string>, logPath: string)
    ensures var b := Body(host, when, reason, shot, img, wav, systemInfo, logPath);
      var head := Header(host, when, reason);
      var tail := Footer(logPath);
      && |head| + |tail| <= |b|
      && b[..|head|] == head
      && b[|b| - |tail|..] == tail
  {
    var head := Header(host, when, reason);
    var middle := FlagsLine(shot, img, wav) + InfoSection(systemInfo);
    var tail := Footer(logPath);
    assert Body(host, when, reason, shot, img, wav, systemInfo, logPath) == head + middle + tail;
  }

  /** The system information section is empty exactly when it is switched off. */
  lemma InfoSectionPresent(systemInfo: Option<string>)
    ensures InfoSection(systemInfo) == "" <==> systemInfo.None?
  {
  }

  /** `os.getenv(name)`. */
  function Getenv(env: map<string, string>, name: string): (r: Option<string>)
    ensures r.Some? <==> name in env
    ensures r.Some? ==> r.value == env[name]
  {
    if name in env then Some(env[name]) else None
  }

  /** The truth of an optional string in Python: set and not empty. */
  predicate Truthy(v: Option<string>) {
    v.Some? && v.value != ""
  }

  /** `int(os.getenv('SMTP_PORT', '587'))`; `None` stands for the `ValueError` that ends the sending thread. */
  function Port(env: map<string, string>): Option<int> {
    ParseInt(if "SMTP_PORT" in env then env["SMTP_PORT"] else "587")
  }

  /** `os.getenv('MAIL_TO') or smtp_user`. */
  function MailTo(env: map<string, string>): Option<string> {
    if Truthy(Getenv(env, "MAIL_TO")) then Getenv(env, "MAIL_TO") else Getenv(env, "SMTP_USER")
  }

  /** `os.getenv('MAIL_FROM_NAME', 'SecureLock')`: the default only when the variable is unset. */
  function FromName(env: map<string, string>): string {
    if "MAIL_FROM_NAME" in env then env["MAIL_FROM_NAME"] else "SecureLock"
  }

  /** The guard of `send_email`: server, user, password and recipient all set and not empty. */
  predicate SmtpConfigured(env: map<string, string>) {
    Truthy(Getenv(env, "SMTP_HOST")) && Truthy(Getenv(env, "SMTP_USER"))
    && Truthy(Getenv(env, "SMTP_PASSWORD")) && Truthy(MailTo(env))
  }

  /** A message `send_email` hands to the SMTP server. */
  datatype Email = Email(
    server: string,
    port: int,
    user: string,
    password: string,
    from: string,
    to: string,
    subject: string,
    body: string,
    attached: seq<string>)

  datatype MailOutcome =
    | EmailDisabled
    | BadPort
    | MissingSmtpConfig
    | Deliver(mail: Email)

  /** The attachment paths that can be read, in their order. */
  function Readable(paths: seq<string>, readable: set<string>): seq<string> {
    if paths == [] then []
    else Readable(paths[..|paths| - 1], readable) + (if paths[|paths| - 1] in readable then [paths[|paths| - 1]] else [])
  }

  /** Exactly the readable paths are attached, none twice more often than listed, and none added. */
  lemma {:induction false} ReadableShape(paths: seq<string>, readable: set<string>)
    ensures |Readable(paths, readable)| <= |paths|
    ensures forall p :: p in Readable(paths, readable) <==> p in paths && p in readable
    ensures multiset(Readable(paths, readable)) <= multiset(paths)
  {
    if paths != [] {
      var init := paths[..|paths| - 1];
      ReadableShape(init, readable);
      assert paths == init + [paths[|paths| - 1]];
    }
  }

  /** When every file can be read, all are attached, in their order. */
  lemma {:induction false} AllReadable(paths: seq<string>, readable: set<string>)
    requires forall k :: 0 <= k < |paths| ==> paths[k] in readable
    ensures Readable(paths, readable) == paths
  {
    if paths != [] {
      var init := paths[..|paths| - 1];
      AllReadable(init, readable);
      assert paths == init + [paths[|paths| - 1]];
    }
  }

  /** What `send_email` does with a notification. */
  function Mail(emailEnabled: bool, attachMedia: bool, env: map<string, string>,
                subject: string, body: string, attachments: seq<string>, readable: set<string>): MailOutcome
  {
    if !emailEnabled then EmailDisabled
    else if Port(env).None? then BadPort
    else if !SmtpConfigured(env) then MissingSmtpConfig
    else
      Deliver(Email(
        env["SMTP_HOST"], Port(env).value, env["SMTP_USER"], env["SMTP_PASSWORD"],
        FromName(env) + " <" + env["SMTP_USER"] + ">", MailTo(env).value,
        subject, body,
        if |attachments| > 0 && attachMedia then Readable(attachments, readable) else []))
  }

  /**
   * A message goes out exactly when e-mail is enabled, the port parses, and
   * server, user and password are set: a recipient is then always known,
   * because `MAIL_TO` falls back to the user.
   */
  lemma DeliverWhen(emailEnabled: bool, attachMedia: bool, env: map<string, string>,
                    subject: string, body: string, attachments: seq<string>, readable: set<string>)
    ensures Mail(emailEnabled, attachMedia, env, subject, body, attachments, readable).Deliver?
        <==> emailEnabled && Port(env).Some?
             && Truthy(Getenv(env, "SMTP_HOST")) && Truthy(Getenv(env, "SMTP_USER")) && Truthy(Getenv(env, "SMTP_PASSWORD"))
  {
  }

  /** The recipient is `MAIL_TO` when it is set and not empty, and the sending user otherwise; the sender is always the user. */
  lemma Addresses(attachMedia: bool, env: map<string, string>,
                  subject: string, body: string, attachments: seq<string>, readable: set<string>)
    requires Mail(true, attachMedia, env, subject, body, attachments, readable).Deliver?
    ensures var m := Mail(true, attachMedia, env, subject, body, attachments, readable).mail;
      && m.to == (if "MAIL_TO" in env && env["MAIL_TO"] != "" then env["MAIL_TO"] else env["SMTP_USER"])
      && m.from == FromName(env) + " <" + m.user + ">"
      && m.subject == subject && m.body == body
  {
  }

  /** Without `SMTP_PORT` the port is 587; an empty `SMTP_PORT` is not a number, so nothing is sent. */
  lemma PortDefault(env: map<string, string>)
    ensures "SMTP_PORT" !in env ==> Port(env) == Some(587)
    ensures "SMTP_PORT" in env && env["SMTP_PORT"] == "" ==> Port(env).None?
  {
    ParseIntOfIntToString(587);
    assert IntToString(587) == "587" by {
      assert NatToString(587) == NatToString(58) + [DigitChar(7)];
      assert NatToString(58) == NatToString(5) + [DigitChar(8)];
    }
  }

  /** An unset sender name becomes "SecureLock"; one set to the empty string stays empty. */
  lemma FromNameDefault(env: map<string, string>)
    ensures "MAIL_FROM_NAME" !in env ==> FromName(env) == "SecureLock"
    ensures "MAIL_FROM_NAME" in env && env["MAIL_FROM_NAME"] == "" ==> FromName(env) == ""
  {
  }

  /** The attachment loop of `send_email`: adds the files that can be read, skipping the others. */
  method AttachReadable(paths: seq<string>, readable: set<string>) returns (attached: seq<string>)
    ensures attached == Readable(paths, readable)
  {
    attached := [];
    for i := 0 to |paths|
      invariant attached == Readable(paths[..i], readable)
    {
      assert paths[..i + 1][..i] == paths[..i];
      if paths[i] in readable {
        attached := attached + [paths[i]];
      }
    }
    assert paths[..|paths|] == paths;
  }

  /** `send_email`: the guards in their order, then the message with its attachments. */
  method SendEmail(emailEnabled: bool, attachMedia: bool, env: map<string, string>,
                   subject: string, body: string, attachments: seq<string>, readable: set<string>)
    returns (outcome: MailOutcome)
    ensures outcome == Mail(emailEnabled, attachMedia, env, subject, body, attachments, readable)
  {
    if !emailEnabled {
      return EmailDisabled;
    }
    var port := Port(env);
    if port.None? {
      return BadPort;
    }
    var host := Getenv(env, "SMTP_HOST");
    var user := Getenv(env, "SMTP_USER");
    var password := Getenv(env, "SMTP_PASSWORD");
    var mailTo := if Truthy(Getenv(env, "MAIL_TO")) then Getenv(env, "MAIL_TO") else user;
    var fromName := if "MAIL_FROM_NAME" in env then env["MAIL_FROM_NAME"] else "SecureLock";
    if !Truthy(host) || !Truthy(user) || !Truthy(password) || !Truthy(mailTo) {
      return MissingSmtpConfig;
    }
    var attached := [];
    if |attachments| > 0 && attachMedia {
      attached := AttachReadable(attachments, readable);
    }
    outcome := Deliver(Email(host.value, port.value, user.value, password.value,
                             fromName + " <" + user.value + ">", mailTo.value, subject, body, attached));
  }

  /** The attachment list of `_capture_and_notify`: screenshot, camera frame and audio clip, each when produced. */
  method CollectAttachments(shot: Option<string>, img: Option<string>, wav: Option<string>) returns (attachments: seq<string>)
    ensures attachments == Attach(shot) + Attach(img) + Attach(wav)
  {
    attachments := [];
    if shot.Some? {
      attachments := attachments + [shot.value];
    }
    if img.Some? {
      attachments := attachments + [img.value];
    }
    if wav.Some? {
      attachments := attachments + [wav.value];
    }
  }

  /** The body text of `_capture_and_notify`, built line by line. */
  method ComposeBody(host: string, when: string, reason: string, shot: bool, img: bool, wav: bool,
                     includeSystemInfo: bool, sysInfo: string, logPath: string) returns (body: string)
    ensures body == Body(host, when, reason, shot, img, wav, if includeSystemInfo then Some(sysInfo) else None, logPath)
  {
    body := Header(host, when, reason);
    body := body + FlagsLine(shot, img, wav);
    if includeSystemInfo {
      body := body + InfoSection(Some(sysInfo));
    }
    body := body + Footer(logPath);
  }

  /**
   * `_capture_and_notify`: captures in the order screenshot, camera, audio,
   * attaching each file that was produced; writes the subject and the body,
   * with the system information when it is enabled; and sends.
   */
  method CaptureAndNotify(opts: EvidenceSettings, reason: string, host: string, when: string,
                          screen: Option<string>, camera: Option<string>, microphone: Option<string>,
                          sysInfo: string, logPath: string, env: map<string, string>, readable: set<string>)
    returns (subject: string, body: string, attachments: seq<string>, outcome: MailOutcome)
    ensures attachments == Attach(Captured(opts.screenshot, screen)) + Attach(Captured(opts.camera, camera)) + Attach(Captured(opts.audio, microphone))
    ensures subject == "[SecureLock] Yanlış giriş - " + when
    ensures body == Body(host, when, reason, opts.screenshot && screen.Some?, opts.camera && camera.Some?, opts.audio && microphone.Some?,
                         if opts.systemInfo then Some(sysInfo) else None, logPath)
    ensures outcome == Mail(opts.email, opts.attachMedia, env, subject, body, attachments, readable)
  {
    var shot := Captured(opts.screenshot, screen);
    var img := Captured(opts.camera, camera);
    var wav := Captured(opts.audio, microphone);
    attachments := CollectAttachments(shot, img, wav);
    subject := "[SecureLock] Yanlış giriş - " + when;
    body := ComposeBody(host, when, reason, shot.Some?, img.Some?, wav.Some?, opts.systemInfo, sysInfo, logPath);
    outcome := SendEmail(opts.email, opts.attachMedia, env, subject, body, attachments, readable);
  }

  /** The attachments are one file per capture that produced one, screenshot first and audio last. */
  lemma AttachmentOrder(shot: Option<string>, img: Option<string>, wav: Option<string>)
    ensures var a := Attach(shot) + Attach(img) + Attach(wav);
      && |a| == (if shot.Some? then 1 else 0) + (if img.Some? then 1 else 0) + (if wav.Some? then 1 else 0)
      && (shot.Some? ==> a[0] == shot.value)
      && (wav.Some? ==> a[|a| - 1] == wav.value)
      && (img.Some? ==> a[if shot.Some? then 1 else 0] == img.value)
  {
  }
}
