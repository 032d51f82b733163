/**
 * `src/systemd.rs`: the older controller. Its `Config` renders a fixed unit
 * file template with a handful of configurable values, every error is a
 * `ServiceError` carrying a message, and only a failure to spawn `systemctl`
 * counts as an error: exit statuses are not looked at, except for the
 * unit-file listing in `status`.
 */
module Legacy {
  import opened Wrappers
  import opened Primitives
  import opened Text
  import opened Macros
  import opened Effects
  import Systemd

  /** `crate::service::ServiceError`. */
  datatype ServiceError = ServiceError(message: string)

  /** The older `Config`. */
  datatype Config = Config(
    name: string,
    displayName: string,
    description: Option<string>,
    username: Option<string>,
    executable: Path,
    args: Option<seq<string>>,
    workingDirectory: Option<Path>,
    environment: Option<seq<(string, string)>>,
    chRoot: Option<Path>,
    restart: bool,
    restartSec: Option<u32>)

  // ---------------------------------------------------------------------------
  // The template
  // ---------------------------------------------------------------------------

  /** A `key=value` line. */
  function Setting(key: string, value: string): string {
    key + "=" + value
  }

  /** The command line: the executable, then a space and the arguments joined by spaces when there are any. */
  function ExecStartValue(c: Config): string {
    match c.args
    case Some(args) => c.executable + " " + Join(args, " ")
    case None => c.executable
  }

  /** A line that is written only when the value is set. */
  function OptionalSetting(key: string, value: Option<string>): (r: seq<string>)
    ensures value.None? ==> r == []
    ensures value.Some? ==> r == [Setting(key, value.value)]
  {
    if value.Some? then [Setting(key, value.value)] else []
  }

  /** One `Environment=key=value` line per pair, in order. */
  function EnvironmentLines(pairs: seq<(string, string)>): (r: seq<string>)
    ensures |r| == |pairs|
    ensures forall i :: 0 <= i < |pairs| ==> r[i] == Setting("Environment", pairs[i].0 + "=" + pairs[i].1)
  {
    if |pairs| == 0 then []
    else
      var last := pairs[|pairs| - 1];
      EnvironmentLines(pairs[..|pairs| - 1]) + [Setting("Environment", last.0 + "=" + last.1)]
  }

  function UnitPart(c: Config): seq<string> {
    ["[Unit]", Setting("Description", c.displayName)]
  }

  function ServiceHead(c: Config): seq<string> {
    [ "[Service]",
      Setting("StartLimitInterval", "5"),
      Setting("StartLimitBurst", "10"),
      Setting("ExecStart", ExecStartValue(c)),
      Setting("KillSignal", "SIGINT"),
      Setting("Restart", RestartValue(c)) ]
  }

  function RestartValue(c: Config): string {
    if c.restart then "always" else "no"
  }

  function OptionalPart(c: Config): seq<string> {
    OptionalSetting("RootDirectory", c.chRoot)
    + OptionalSetting("WorkingDirectory", c.workingDirectory)
    + OptionalSetting("User", c.username)
  }

  function ServiceTail(c: Config): seq<string> {
    [Setting("RestartSec", "120"), Setting("EnvironmentFile", "-/etc/sysconfig/")]
    + EnvironmentLines(Pairs(c))
  }

  /** The environment pairs; none when the list is absent. */
  function Pairs(c: Config): seq<(string, string)> {
    if c.environment.Some? then c.environment.value else []
  }

  const InstallPart: seq<string> := ["[Install]", Setting("WantedBy", "multi-user.target")]

  /** The lines of the template, in the order `Display for Config` writes them. */
  function LegacyLines(c: Config): seq<string> {
    UnitPart(c) + ServiceHead(c) + OptionalPart(c) + ServiceTail(c) + InstallPart
  }

  /** `Display for Config`. */
  function LegacyText(c: Config): string {
    JoinLines(LegacyLines(c))
  }

  /** Writes one line of the template. */
  method WriteTemplateLine(buf: Formatter, line: string)
    modifies buf
    ensures buf.text == old(buf.text) + JoinLines([line])
  {
    buf.WriteStr(line + "\n");
  }

  /** The `for` loop over the environment pairs. */
  method WriteEnvironment(buf: Formatter, pairs: seq<(string, string)>)
    modifies buf
    ensures buf.text == old(buf.text) + JoinLines(EnvironmentLines(pairs))
  {
    var i := 0;
    while i < |pairs|
      invariant 0 <= i <= |pairs|
      invariant buf.text == old(buf.text) + JoinLines(EnvironmentLines(pairs[..i]))
    {
      var line := Setting("Environment", pairs[i].0 + "=" + pairs[i].1);
      EnvironmentLinesNext(pairs, i);
      WriteTemplateLine(buf, line);
      AppendAssoc(old(buf.text), JoinLines(EnvironmentLines(pairs[..i])), JoinLines([line]));
      i := i + 1;
    }
    assert pairs[..i] == pairs;
  }

  lemma EnvironmentLinesNext(pairs: seq<(string, string)>, i: nat)
    requires i < |pairs|
    ensures JoinLines(EnvironmentLines(pairs[..i + 1]))
      == JoinLines(EnvironmentLines(pairs[..i])) + JoinLines([Setting("Environment", pairs[i].0 + "=" + pairs[i].1)])
  {
    assert pairs[..i + 1][..i] == pairs[..i];
    JoinLinesAppend(EnvironmentLines(pairs[..i]), [Setting("Environment", pairs[i].0 + "=" + pairs[i].1)]);
  }

  /** `Display for Config`, block by block, each block one `write_str` or `write_fmt` per line. */
  method Fmt(c: Config, buf: Formatter)
    modifies buf
    ensures buf.text == old(buf.text) + LegacyText(c)
  {
    ghost var t0 := buf.text;
    WriteUnitPart(c, buf);
    WriteServiceHead(c, buf);
    WriteOptionalPart(c, buf);
    WriteServiceTail(c, buf);
    WriteInstallPart(buf);
    TemplateJoins(t0, c);
  }

  method WriteUnitPart(c: Config, buf: Formatter)
    modifies buf
    ensures buf.text == old(buf.text) + JoinLines(UnitPart(c))
  {
    ghost var t0 := buf.text;
    ghost var written: seq<string> := [];
    WriteTemplateLine(buf, "[Unit]");
    written := Wrote(t0, written, "[Unit]");
    WriteTemplateLine(buf, Setting("Description", c.displayName));
    written := Wrote(t0, written, Setting("Description", c.displayName));
  }

  method WriteServiceHead(c: Config, buf: Formatter)
    modifies buf
    ensures buf.text == old(buf.text) + JoinLines(ServiceHead(c))
  {
    ghost var t0 := buf.text;
    ghost var written: seq<string> := [];
    WriteTemplateLine(buf, "[Service]");
    written := Wrote(t0, written, "[Service]");
    WriteTemplateLine(buf, Setting("StartLimitInterval", "5"));
    written := Wrote(t0, written, Setting("StartLimitInterval", "5"));
    WriteTemplateLine(buf, Setting("StartLimitBurst", "10"));
    written := Wrote(t0, written, Setting("StartLimitBurst", "10"));
    WriteExecStart(c, buf);
    written := Wrote(t0, written, Setting("ExecStart", ExecStartValue(c)));
    WriteTemplateLine(buf, Setting("KillSignal", "SIGINT"));
    written := Wrote(t0, written, Setting("KillSignal", "SIGINT"));
    WriteRestart(c, buf);
    written := Wrote(t0, written, Setting("Restart", RestartValue(c)));
    assert written == ServiceHead(c);
  }

  /** The `match` on `args`. */
  method WriteExecStart(c: Config, buf: Formatter)
    modifies buf
    ensures buf.text == old(buf.text) + JoinLines([Setting("ExecStart", ExecStartValue(c))])
  {
    match c.args {
      case Some(args) =>
        WriteTemplateLine(buf, Setting("ExecStart", c.executable + " " + Join(args, " ")));
      case None =>
        WriteTemplateLine(buf, Setting("ExecStart", c.executable));
    }
  }

  /** The `if` on `restart`. */
  method WriteRestart(c: Config, buf: Formatter)
    modifies buf
    ensures buf.text == old(buf.text) + JoinLines([Setting("Restart", RestartValue(c))])
  {
    if c.restart {
      WriteTemplateLine(buf, Setting("Restart", "always"));
    } else {
      WriteTemplateLine(buf, Setting("Restart", "no"));
    }
  }

  method WriteOptionalPart(c: Config, buf: Formatter)
    modifies buf
    ensures buf.text == old(buf.text) + JoinLines(OptionalPart(c))
  {
    ghost var t0 := buf.text;
    ghost var written: seq<string> := [];
    if c.chRoot.Some? {
      WriteTemplateLine(buf, Setting("RootDirectory", c.chRoot.value));
      written := Wrote(t0, written, Setting("RootDirectory", c.chRoot.value));
    }
    if c.workingDirectory.Some? {
      WriteTemplateLine(buf, Setting("WorkingDirectory", c.workingDirectory.value));
      written := Wrote(t0, written, Setting("WorkingDirectory", c.workingDirectory.value));
    }
    if c.username.Some? {
      WriteTemplateLine(buf, Setting("User", c.username.value));
      written := Wrote(t0, written, Setting("User", c.username.value));
    }
  }

  method WriteServiceTail(c: Config, buf: Formatter)
    modifies buf
    ensures buf.text == old(buf.text) + JoinLines(ServiceTail(c))
  {
    ghost var t0 := buf.text;
    ghost var written: seq<string> := [];
    WriteTemplateLine(buf, Setting("RestartSec", "120"));
    written := Wrote(t0, written, Setting("RestartSec", "120"));
    WriteTemplateLine(buf, Setting("EnvironmentFile", "-/etc/sysconfig/"));
    written := Wrote(t0, written, Setting("EnvironmentFile", "-/etc/sysconfig/"));
    var pairs := if c.environment.Some? then c.environment.value else [];
    assert pairs == Pairs(c);
    WriteEnvironment(buf, pairs);
    JoinLinesAppend(written, EnvironmentLines(pairs));
    AppendAssoc(t0, JoinLines(written), JoinLines(EnvironmentLines(pairs)));
  }

  method WriteInstallPart(buf: Formatter)
    modifies buf
    ensures buf.text == old(buf.text) + JoinLines(InstallPart)
  {
    ghost var t0 := buf.text;
    ghost var written: seq<string> := [];
    WriteTemplateLine(buf, "[Install]");
    written := Wrote(t0, written, "[Install]");
    WriteTemplateLine(buf, Setting("WantedBy", "multi-user.target"));
    written := Wrote(t0, written, Setting("WantedBy", "multi-user.target"));
  }

  lemma TemplateJoins(t0: string, c: Config)
    ensures t0 + JoinLines(UnitPart(c)) + JoinLines(ServiceHead(c)) + JoinLines(OptionalPart(c))
      + JoinLines(ServiceTail(c)) + JoinLines(InstallPart)
      == t0 + LegacyText(c)
  {
    var a, b, o, f, i := UnitPart(c), ServiceHead(c), OptionalPart(c), ServiceTail(c), InstallPart;
    JoinLinesAppend(a, b);
    JoinLinesAppend(a + b, o);
    JoinLinesAppend(a + b + o, f);
    JoinLinesAppend(a + b + o + f, i);
    AppendAssoc(t0, JoinLines(a), JoinLines(b));
    AppendAssoc(t0, JoinLines(a + b), JoinLines(o));
    AppendAssoc(t0, JoinLines(a + b + o), JoinLines(f));
    AppendAssoc(t0, JoinLines(a + b + o + f), JoinLines(i));
  }

  /** The text written so far stays the lines written so far when one more line is written. */
  lemma Wrote(t0: string, written: seq<string>, line: string) returns (more: seq<string>)
    ensures more == written + [line]
    ensures t0 + JoinLines(written) + JoinLines([line]) == t0 + JoinLines(more)
  {
    more := written + [line];
    JoinLinesAppend(written, [line]);
    AppendAssoc(t0, JoinLines(written), JoinLines([line]));
  }

  // ---------------------------------------------------------------------------
  // Reading the template back
  // ---------------------------------------------------------------------------

  /** The values of the lines of the form `key=value`, in order: what systemd reads for `key`. */
  function ValuesOf(lines: seq<string>, key: string): seq<string> {
    if |lines| == 0 then []
    else
      var rest := ValuesOf(lines[1..], key);
      if StartsWith(lines[0], key + "=") then [lines[0][|key| + 1..]] + rest else rest
  }

  /** The value of a setting, for the key it is written under. */
  function Pick(k: string, v: string, key: string): seq<string> {
    if k == key then [v] else []
  }

  /** The value of a setting written only when set. */
  function PickOption(k: string, v: Option<string>, key: string): seq<string> {
    if v.Some? then Pick(k, v.value, key) else []
  }

  /** The `key=value` text of each environment pair. */
  function EnvironmentValues(pairs: seq<(string, string)>): (r: seq<string>)
    ensures |r| == |pairs|
    ensures forall i :: 0 <= i < |pairs| ==> r[i] == pairs[i].0 + "=" + pairs[i].1
  {
    seq(|pairs|, i requires 0 <= i < |pairs| => pairs[i].0 + "=" + pairs[i].1)
  }

  lemma {:induction false} ValuesOfAppend(a: seq<string>, b: seq<string>, key: string)
    ensures ValuesOf(a + b, key) == ValuesOf(a, key) + ValuesOf(b, key)
  {
    if |a| > 0 {
      assert (a + b)[1..] == a[1..] + b;
      ValuesOfAppend(a[1..], b, key);
    } else {
      assert a + b == b;
    }
  }

  /**
   * A `k=value` line is read under `k` and no other key, as long as neither
   * key holds `=`.
   */
  lemma ValuesOfSetting(k: string, v: string, key: string)
    requires '=' !in k && '=' !in key
    ensures ValuesOf([Setting(k, v)], key) == Pick(k, v, key)
  {
    var line := Setting(k, v);
    var prefix := key + "=";
    var single: seq<string> := [line];
    assert single[1..] == [];
    if k == key {
      assert line[..|prefix|] == prefix;
      assert line[|key| + 1..] == v;
    } else if |key| < |k| {
      assert line[|key|] == k[|key|];
      NotStartsWithAt(line, prefix, |key|);
    } else if |key| > |k| {
      assert line[|k|] == '=';
      NotStartsWithAt(line, prefix, |k|);
    } else {
      var j :| 0 <= j < |k| && k[j] != key[j];
      assert line[j] == k[j];
      NotStartsWithAt(line, prefix, j);
    }
  }

  /** A section header has no `=`, so it is read under no key. */
  lemma ValuesOfHeader(h: string, key: string)
    requires '=' !in h
    ensures ValuesOf([h], key) == []
  {
    var single: seq<string> := [h];
    assert single[1..] == [];
    var prefix := key + "=";
    assert prefix[|key|] == '=';
    assert |key| < |h| ==> h[..|prefix|][|key|] == h[|key|] != '=';
  }

  lemma {:induction false} ValuesOfEnvironment(pairs: seq<(string, string)>, key: string)
    requires '=' !in key
    ensures ValuesOf(EnvironmentLines(pairs), key) == if key == "Environment" then EnvironmentValues(pairs) else []
  {
    if |pairs| > 0 {
      var init, last := pairs[..|pairs| - 1], pairs[|pairs| - 1];
      ValuesOfEnvironment(init, key);
      ValuesOfAppend(EnvironmentLines(init), [Setting("Environment", last.0 + "=" + last.1)], key);
      ValuesOfSetting("Environment", last.0 + "=" + last.1, key);
      if key == "Environment" {
        assert EnvironmentValues(pairs) == EnvironmentValues(init) + [last.0 + "=" + last.1];
      }
    }
  }

  /** The settings of `[Unit]`. */
  lemma UnitPartValues(c: Config, key: string)
    requires '=' !in key
    ensures ValuesOf(UnitPart(c), key) == Pick("Description", c.displayName, key)
  {
    assert UnitPart(c) == ["[Unit]"] + [Setting("Description", c.displayName)];
    assert '=' !in "[Unit]" && '=' !in "Description";
    ValuesOfAppend(["[Unit]"], [Setting("Description", c.displayName)], key);
    ValuesOfHeader("[Unit]", key);
    ValuesOfSetting("Description", c.displayName, key);
  }

  /** The settings of `[Service]` before the optional lines. */
  lemma ServiceHeadValues(c: Config, key: string)
    requires '=' !in key
    ensures ValuesOf(ServiceHead(c), key)
      == Pick("StartLimitInterval", "5", key) + (Pick("StartLimitBurst", "10", key)
        + (Pick("ExecStart", ExecStartValue(c), key) + (Pick("KillSignal", "SIGINT", key)
        + Pick("Restart", RestartValue(c), key))))
  {
    var s1, s2 := Setting("StartLimitInterval", "5"), Setting("StartLimitBurst", "10");
    var s3, s4 := Setting("ExecStart", ExecStartValue(c)), Setting("KillSignal", "SIGINT");
    var s5 := Setting("Restart", RestartValue(c));
    assert ServiceHead(c) == ["[Service]"] + ([s1] + ([s2] + ([s3] + ([s4] + [s5]))));
    HeadKeysPlain();
    ValuesOfAppend([s4], [s5], key);
    ValuesOfAppend([s3], [s4] + [s5], key);
    ValuesOfAppend([s2], [s3] + ([s4] + [s5]), key);
    ValuesOfAppend([s1], [s2] + ([s3] + ([s4] + [s5])), key);
    ValuesOfAppend(["[Service]"], [s1] + ([s2] + ([s3] + ([s4] + [s5]))), key);
    ValuesOfHeader("[Service]", key);
    ValuesOfSetting("StartLimitInterval", "5", key);
    ValuesOfSetting("StartLimitBurst", "10", key);
    ValuesOfSetting("ExecStart", ExecStartValue(c), key);
    ValuesOfSetting("KillSignal", "SIGINT", key);
    ValuesOfSetting("Restart", RestartValue(c), key);
  }

  lemma OptionalSettingValues(k: string, v: Option<string>, key: string)
    requires '=' !in k && '=' !in key
    ensures ValuesOf(OptionalSetting(k, v), key) == PickOption(k, v, key)
  {
    if v.Some? {
      ValuesOfSetting(k, v.value, key);
    }
  }

  /** The optional settings. */
  lemma OptionalPartValues(c: Config, key: string)
    requires '=' !in key
    ensures ValuesOf(OptionalPart(c), key)
      == PickOption("RootDirectory", c.chRoot, key) + PickOption("WorkingDirectory", c.workingDirectory, key)
        + PickOption("User", c.username, key)
  {
    var r, w, u := OptionalSetting("RootDirectory", c.chRoot), OptionalSetting("WorkingDirectory", c.workingDirectory),
      OptionalSetting("User", c.username);
    OptionalKeysPlain();
    ValuesOfAppend(r, w, key);
    ValuesOfAppend(r + w, u, key);
    OptionalSettingValues("RootDirectory", c.chRoot, key);
    OptionalSettingValues("WorkingDirectory", c.workingDirectory, key);
    OptionalSettingValues("User", c.username, key);
  }

  /** The settings of `[Service]` after the optional lines. */
  lemma ServiceTailValues(c: Config, key: string)
    requires '=' !in key
    ensures ValuesOf(ServiceTail(c), key)
      == Pick("RestartSec", "120", key) + (Pick("EnvironmentFile", "-/etc/sysconfig/", key)
        + (if key == "Environment" then EnvironmentValues(Pairs(c)) else []))
  {
    var s1, s2 := Setting("RestartSec", "120"), Setting("EnvironmentFile", "-/etc/sysconfig/");
    assert ServiceTail(c) == [s1] + ([s2] + EnvironmentLines(Pairs(c)));
    TailKeysPlain();
    ValuesOfAppend([s2], EnvironmentLines(Pairs(c)), key);
    ValuesOfAppend([s1], [s2] + EnvironmentLines(Pairs(c)), key);
    ValuesOfSetting("RestartSec", "120", key);
    ValuesOfSetting("EnvironmentFile", "-/etc/sysconfig/", key);
    ValuesOfEnvironment(Pairs(c), key);
  }

  /** The settings of `[Install]`. */
  lemma InstallPartValues(key: string)
    requires '=' !in key
    ensures ValuesOf(InstallPart, key) == Pick("WantedBy", "multi-user.target", key)
  {
    assert InstallPart == ["[Install]"] + [Setting("WantedBy", "multi-user.target")];
    TailKeysPlain();
    ValuesOfAppend(["[Install]"], [Setting("WantedBy", "multi-user.target")], key);
    ValuesOfHeader("[Install]", key);
    ValuesOfSetting("WantedBy", "multi-user.target", key);
  }

  /** What is read from the whole file is what is read from each block, in order. */
  lemma TemplateValues(c: Config, key: string)
    ensures ValuesOf(LegacyLines(c), key)
      == ValuesOf(UnitPart(c), key) + ValuesOf(ServiceHead(c), key) + ValuesOf(OptionalPart(c), key)
        + ValuesOf(ServiceTail(c), key) + ValuesOf(InstallPart, key)
  {
    var u, h, o, t, i := UnitPart(c), ServiceHead(c), OptionalPart(c), ServiceTail(c), InstallPart;
    ValuesOfAppend(u, h, key);
    ValuesOfAppend(u + h, o, key);
    ValuesOfAppend(u + h + o, t, key);
    ValuesOfAppend(u + h + o + t, i, key);
  }

  lemma OptionalKeysPlain()
    ensures '=' !in "RootDirectory" && '=' !in "WorkingDirectory" && '=' !in "User"
  {
  }

  lemma TailKeysPlain()
    ensures '=' !in "RestartSec" && '=' !in "EnvironmentFile" && '=' !in "Environment"
    ensures '=' !in "[Install]" && '=' !in "WantedBy"
  {
  }

  lemma HeadKeysPlain()
    ensures '=' !in "[Service]" && '=' !in "StartLimitInterval" && '=' !in "StartLimitBurst"
    ensures '=' !in "ExecStart" && '=' !in "KillSignal" && '=' !in "Restart"
  {
  }

  // ---------------------------------------------------------------------------
  // What the template promises
  // ---------------------------------------------------------------------------

  /** `Description=` carries the display name; the `description` field is never written. */
  lemma LegacyDescription(c: Config, other: Option<string>)
    ensures ValuesOf(LegacyLines(c), "Description") == [c.displayName]
    ensures LegacyText(c.(description := other)) == LegacyText(c)
  {
    TemplateValues(c, "Description");
    UnitPartValues(c, "Description");
    ServiceHeadValues(c, "Description");
    OptionalPartValues(c, "Description");
    ServiceTailValues(c, "Description");
    InstallPartValues("Description");
  }

  /** One `ExecStart=` line, holding the command line. */
  lemma LegacyExecStart(c: Config)
    ensures ValuesOf(LegacyLines(c), "ExecStart") == [ExecStartValue(c)]
  {
    TemplateValues(c, "ExecStart");
    UnitPartValues(c, "ExecStart");
    ServiceHeadValues(c, "ExecStart");
    OptionalPartValues(c, "ExecStart");
    ServiceTailValues(c, "ExecStart");
    InstallPartValues("ExecStart");
  }

  /** One `Restart=` line: `always` exactly when `restart` is set, `no` otherwise. */
  lemma LegacyRestart(c: Config)
    ensures ValuesOf(LegacyLines(c), "Restart") == [if c.restart then "always" else "no"]
  {
    TemplateValues(c, "Restart");
    UnitPartValues(c, "Restart");
    ServiceHeadValues(c, "Restart");
    OptionalPartValues(c, "Restart");
    ServiceTailValues(c, "Restart");
    InstallPartValues("Restart");
  }

  /** `RestartSec=120` whatever `restart_sec` says: that field is never written. */
  lemma LegacyRestartSec(c: Config, other: Option<u32>)
    ensures ValuesOf(LegacyLines(c), "RestartSec") == ["120"]
    ensures LegacyText(c.(restartSec := other)) == LegacyText(c)
  {
    TemplateValues(c, "RestartSec");
    UnitPartValues(c, "RestartSec");
    ServiceHeadValues(c, "RestartSec");
    OptionalPartValues(c, "RestartSec");
    ServiceTailValues(c, "RestartSec");
    InstallPartValues("RestartSec");
  }

  /** One `Environment=` line per pair, in list order, and none when the list is absent. */
  lemma LegacyEnvironment(c: Config)
    ensures ValuesOf(LegacyLines(c), "Environment") == EnvironmentValues(Pairs(c))
    ensures c.environment.None? ==> ValuesOf(LegacyLines(c), "Environment") == []
  {
    FixedPartsHoldNoEnvironment(c);
    TailEnvironment(c);
    ValuesOfFourthPart(UnitPart(c), ServiceHead(c), OptionalPart(c), ServiceTail(c), InstallPart, "Environment");
  }

  /** When only the fourth of five blocks sets a key, the key's values are that block's. */
  lemma ValuesOfFourthPart(u: seq<string>, h: seq<string>, o: seq<string>, t: seq<string>, i: seq<string>, key: string)
    requires ValuesOf(u, key) == [] && ValuesOf(h, key) == [] && ValuesOf(o, key) == [] && ValuesOf(i, key) == []
    ensures ValuesOf(u + h + o + t + i, key) == ValuesOf(t, key)
  {
    ValuesOfAppend(u, h, key);
    ValuesOfAppend(u + h, o, key);
    ValuesOfAppend(u + h + o, t, key);
    ValuesOfAppend(u + h + o + t, i, key);
  }

  /** The tail of `[Service]` sets `Environment` once per pair. */
  lemma TailEnvironment(c: Config)
    ensures ValuesOf(ServiceTail(c), "Environment") == EnvironmentValues(Pairs(c))
  {
    var key := "Environment";
    ServiceTailValues(c, key);
    assert |"RestartSec"| != |key| && |"EnvironmentFile"| != |key|;
  }

  /** Outside the environment lines, the template sets no `Environment`. */
  lemma FixedPartsHoldNoEnvironment(c: Config)
    ensures ValuesOf(UnitPart(c), "Environment") == []
    ensures ValuesOf(ServiceHead(c), "Environment") == []
    ensures ValuesOf(OptionalPart(c), "Environment") == []
    ensures ValuesOf(InstallPart, "Environment") == []
  {
    var key := "Environment";
    UnitPartValues(c, key);
    assert "Description"[0] != key[0];
    ServiceHeadValues(c, key);
    assert |"StartLimitInterval"| != |key| && |"StartLimitBurst"| != |key| && |"ExecStart"| != |key|;
    assert |"KillSignal"| != |key| && |"Restart"| != |key|;
    OptionalPartValues(c, key);
    assert |"RootDirectory"| != |key| && |"WorkingDirectory"| != |key| && |"User"| != |key|;
    InstallPartValues(key);
    assert |"WantedBy"| != |key|;
  }

  /** `RootDirectory=`, `WorkingDirectory=` and `User=` appear only when set, each at most once. */
  lemma LegacyOptionalSettings(c: Config)
    ensures ValuesOf(LegacyLines(c), "RootDirectory") == if c.chRoot.Some? then [c.chRoot.value] else []
    ensures ValuesOf(LegacyLines(c), "WorkingDirectory")
      == if c.workingDirectory.Some? then [c.workingDirectory.value] else []
    ensures ValuesOf(LegacyLines(c), "User") == if c.username.Some? then [c.username.value] else []
  {
    OnlyOptional(c, "RootDirectory");
    OnlyOptional(c, "WorkingDirectory");
    OnlyOptional(c, "User");
  }

  lemma OnlyOptional(c: Config, key: string)
    requires key == "RootDirectory" || key == "WorkingDirectory" || key == "User"
    ensures ValuesOf(LegacyLines(c), key)
      == PickOption("RootDirectory", c.chRoot, key) + PickOption("WorkingDirectory", c.workingDirectory, key)
        + PickOption("User", c.username, key)
  {
    TemplateValues(c, key);
    UnitPartValues(c, key);
    ServiceHeadValues(c, key);
    OptionalPartValues(c, key);
    ServiceTailValues(c, key);
    InstallPartValues(key);
  }

  /**
   * The command line is the executable alone when `args` is absent, and
   * otherwise the executable, a space and the arguments joined by spaces, so
   * an empty argument list leaves a trailing space.
   */
  lemma ExecStartForms(c: Config)
    ensures c.args.None? ==> ExecStartValue(c) == c.executable
    ensures c.args == Some([]) ==> ExecStartValue(c) == c.executable + " "
    ensures c.args.Some? && |c.args.value| > 0 ==> ExecStartValue(c) == Join([c.executable] + c.args.value, " ")
  {
    if c.args.Some? && |c.args.value| > 0 {
      var xs := [c.executable] + c.args.value;
      assert xs[1..] == c.args.value;
    }
  }

  /** When neither the executable nor any argument holds a space, the command line splits back into them. */
  lemma ExecStartSplits(c: Config)
    requires c.args.Some? && |c.args.value| > 0
    requires ' ' !in c.executable
    requires forall i :: 0 <= i < |c.args.value| ==> ' ' !in c.args.value[i]
    ensures Split(ExecStartValue(c), ' ') == [c.executable] + c.args.value
  {
    var xs := [c.executable] + c.args.value;
    ExecStartForms(c);
    forall i | 0 <= i < |xs| ensures ' ' !in xs[i] {
      if i > 0 {
        assert xs[i] == c.args.value[i - 1];
      }
    }
    SplitJoin(xs, ' ');
  }

  /**
   * The template's layout: `[Unit]` first, `[Service]` third, `[Install]` and
   * `WantedBy=multi-user.target` last, and twelve fixed lines besides the
   * optional and environment lines.
   */
  lemma LegacyLayout(c: Config)
    ensures |LegacyLines(c)| == 12 + |OptionalPart(c)| + |Pairs(c)|
    ensures |OptionalPart(c)|
      == (if c.chRoot.Some? then 1 else 0) + (if c.workingDirectory.Some? then 1 else 0) + (if c.username.Some? then 1 else 0)
    ensures LegacyLines(c)[0] == "[Unit]" && LegacyLines(c)[2] == "[Service]"
    ensures LegacyLines(c)[|LegacyLines(c)| - 2] == "[Install]"
    ensures LegacyLines(c)[|LegacyLines(c)| - 1] == Setting("WantedBy", "multi-user.target")
  {
    var prefix := UnitPart(c) + ServiceHead(c) + OptionalPart(c) + ServiceTail(c);
    assert LegacyLines(c) == prefix + InstallPart;
    assert LegacyLines(c)[0] == UnitPart(c)[0];
    assert LegacyLines(c)[2] == ServiceHead(c)[0];
  }

  // ---------------------------------------------------------------------------
  // From the line list to the written file
  // ---------------------------------------------------------------------------

  /**
   * No configured value holds a line break. Values are written verbatim, so a
   * value holding `\n` splits its line in two and the file then has more
   * lines than the template.
   */
  predicate SingleLineValues(c: Config) {
    && SingleLine(c.displayName)
    && SingleLine(c.executable)
    && (c.args.Some? ==> forall i :: 0 <= i < |c.args.value| ==> SingleLine(c.args.value[i]))
    && (c.chRoot.Some? ==> SingleLine(c.chRoot.value))
    && (c.workingDirectory.Some? ==> SingleLine(c.workingDirectory.value))
    && (c.username.Some? ==> SingleLine(c.username.value))
    && forall i :: 0 <= i < |Pairs(c)| ==> SingleLine(Pairs(c)[i].0) && SingleLine(Pairs(c)[i].1)
  }

  predicate AllSingleLine(lines: seq<string>) {
    forall i :: 0 <= i < |lines| ==> SingleLine(lines[i])
  }

  lemma AllSingleLineAppend(a: seq<string>, b: seq<string>)
    requires AllSingleLine(a) && AllSingleLine(b)
    ensures AllSingleLine(a + b)
  {
    forall i | 0 <= i < |a + b| ensures SingleLine((a + b)[i]) {
      if i >= |a| {
        assert (a + b)[i] == b[i - |a|];
      }
    }
  }

  /** The five parts of the template, one after the other, are single lines when each part is. */
  lemma AllSingleLineParts(a: seq<string>, b: seq<string>, c: seq<string>, d: seq<string>, e: seq<string>)
    requires AllSingleLine(a) && AllSingleLine(b) && AllSingleLine(c) && AllSingleLine(d) && AllSingleLine(e)
    ensures AllSingleLine(a + b + c + d + e)
  {
    AllSingleLineAppend(a, b);
    AllSingleLineAppend(a + b, c);
    AllSingleLineAppend(a + b + c, d);
    AllSingleLineAppend(a + b + c + d, e);
  }

  lemma SettingSingle(k: string, v: string)
    requires SingleLine(k) && SingleLine(v)
    ensures SingleLine(Setting(k, v))
  {
  }

  lemma UnitPartSingle(c: Config)
    requires SingleLine(c.displayName)
    ensures AllSingleLine(UnitPart(c))
  {
    SettingSingle("Description", c.displayName);
  }

  lemma ExecStartSingle(c: Config)
    requires SingleLine(c.executable)
    requires c.args.Some? ==> forall i :: 0 <= i < |c.args.value| ==> SingleLine(c.args.value[i])
    ensures SingleLine(ExecStartValue(c))
  {
    if c.args.Some? {
      JoinSingleLine(c.args.value, " ");
    }
  }

  lemma ServiceHeadSingle(c: Config)
    requires SingleLine(ExecStartValue(c))
    ensures AllSingleLine(ServiceHead(c))
  {
    SettingSingle("ExecStart", ExecStartValue(c));
    SettingSingle("Restart", RestartValue(c));
  }

  lemma OptionalSingle(c: Config)
    requires SingleLineValues(c)
    ensures AllSingleLine(OptionalPart(c))
  {
    var a, b, u := OptionalSetting("RootDirectory", c.chRoot), OptionalSetting("WorkingDirectory", c.workingDirectory),
      OptionalSetting("User", c.username);
    if c.chRoot.Some? { SettingSingle("RootDirectory", c.chRoot.value); }
    if c.workingDirectory.Some? { SettingSingle("WorkingDirectory", c.workingDirectory.value); }
    if c.username.Some? { SettingSingle("User", c.username.value); }
    AllSingleLineAppend(a, b);
    AllSingleLineAppend(a + b, u);
  }

  lemma {:induction false} EnvironmentSingle(pairs: seq<(string, string)>)
    requires forall i :: 0 <= i < |pairs| ==> SingleLine(pairs[i].0) && SingleLine(pairs[i].1)
    ensures AllSingleLine(EnvironmentLines(pairs))
  {
    if |pairs| > 0 {
      var init, last := pairs[..|pairs| - 1], pairs[|pairs| - 1];
      assert forall i :: 0 <= i < |init| ==> init[i] == pairs[i];
      EnvironmentSingle(init);
      SettingSingle("Environment", last.0 + "=" + last.1);
      AllSingleLineAppend(EnvironmentLines(init), [Setting("Environment", last.0 + "=" + last.1)]);
    }
  }

  lemma TailSingle(c: Config)
    requires AllSingleLine(EnvironmentLines(Pairs(c)))
    ensures AllSingleLine(ServiceTail(c))
  {
    AllSingleLineAppend([Setting("RestartSec", "120"), Setting("EnvironmentFile", "-/etc/sysconfig/")],
      EnvironmentLines(Pairs(c)));
  }

  /** With single-line values, reading the written file back line by line gives the template's lines. */
  lemma LegacyTextLines(c: Config)
    requires SingleLineValues(c)
    ensures SplitLines(LegacyText(c)) == LegacyLines(c)
  {
    UnitPartSingle(c);
    ExecStartSingle(c);
    ServiceHeadSingle(c);
    OptionalSingle(c);
    EnvironmentSingle(Pairs(c));
    TailSingle(c);
    assert AllSingleLine(InstallPart);
    AllSingleLineParts(UnitPart(c), ServiceHead(c), OptionalPart(c), ServiceTail(c), InstallPart);
    LinesRoundTrip(LegacyLines(c));
  }

  /**
   * The written file itself, read line by line: its number of lines and its
   * section headers, one `Description=` with the display name, one
   * `ExecStart=` with the command line, one `Restart=`, and one
   * `Environment=` per pair in order.
   */
  lemma LegacyFileSettings(c: Config)
    requires SingleLineValues(c)
    ensures |SplitLines(LegacyText(c))| == 12 + |OptionalPart(c)| + |Pairs(c)|
    ensures SplitLines(LegacyText(c))[0] == "[Unit]" && SplitLines(LegacyText(c))[2] == "[Service]"
    ensures SplitLines(LegacyText(c))[|SplitLines(LegacyText(c))| - 2] == "[Install]"
    ensures SplitLines(LegacyText(c))[|SplitLines(LegacyText(c))| - 1] == Setting("WantedBy", "multi-user.target")
    ensures ValuesOf(SplitLines(LegacyText(c)), "Description") == [c.displayName]
    ensures ValuesOf(SplitLines(LegacyText(c)), "ExecStart") == [ExecStartValue(c)]
    ensures ValuesOf(SplitLines(LegacyText(c)), "Restart") == [if c.restart then "always" else "no"]
    ensures ValuesOf(SplitLines(LegacyText(c)), "Environment") == EnvironmentValues(Pairs(c))
  {
    LegacyTextLines(c);
    LegacyLayout(c);
    LegacyDescription(c, c.description);
    LegacyExecStart(c);
    LegacyRestart(c);
    LegacyEnvironment(c);
  }

  /** The written file itself, read line by line: `RestartSec=120` once, and each optional setting exactly when set. */
  lemma LegacyFileOptionalSettings(c: Config)
    requires SingleLineValues(c)
    ensures ValuesOf(SplitLines(LegacyText(c)), "RestartSec") == ["120"]
    ensures ValuesOf(SplitLines(LegacyText(c)), "RootDirectory") == if c.chRoot.Some? then [c.chRoot.value] else []
    ensures ValuesOf(SplitLines(LegacyText(c)), "WorkingDirectory")
      == if c.workingDirectory.Some? then [c.workingDirectory.value] else []
    ensures ValuesOf(SplitLines(LegacyText(c)), "User") == if c.username.Some? then [c.username.value] else []
  {
    LegacyTextLines(c);
    LegacyRestartSec(c, c.restartSec);
    LegacyOptionalSettings(c);
  }

  // ---------------------------------------------------------------------------
  // The controller
  // ---------------------------------------------------------------------------

  /** A step whose I/O error ends the operation with `message` followed by the error's text. */
  function Reported(step: Step, message: string): Attempt<ServiceError> {
    Attempt(step, e => ServiceError(message + e), None)
  }

  /** The steps of `install` once the unit file is known not to exist yet. */
  function InstallPlan(name: string, contents: string): seq<Attempt<ServiceError>> {
    var dst, unit := Systemd.ConfigPath(name), Systemd.UnitName(name);
    [ Reported(CreateFile(dst), "Failed to open service file: "),
      Reported(WriteFile(dst, contents), "Failed to write to service file: "),
      Reported(SetPermissions(dst, Systemd.ServiceFilePermissions), "Failed to set service file permissions: "),
      Reported(Systemctl(["enable", unit]), "Failed to enable " + unit + ": "),
      Reported(Systemctl(["daemon-reload"]), "Failed to reload systemd daemon: ") ]
  }

  /** What `install` does with the rendered template `contents` on a host whose existing files are `files`. */
  function InstallRun(w: World, files: set<Path>, name: string, contents: string): Run<(), ServiceError> {
    if Systemd.ConfigPath(name) in files then Run([], Err(ServiceError("Service file already exists")))
    else Execute(w, InstallPlan(name, contents))
  }

  /** `Service::install` for the older `Systemd`: the unit file holds `LegacyText(c)`. */
  method Install(c: Config, host: Host) returns (r: Result<(), ServiceError>)
    modifies host
    ensures var run := InstallRun(host.world, old(host.files), c.name, LegacyText(c));
      && r == run.result
      && host.log == old(host.log) + run.steps
      && host.files == Apply(host.world, old(host.files), run.steps)
  {
    r := InstallFile(c.name, LegacyText(c), host);
  }

  method InstallFile(name: string, contents: string, host: Host) returns (r: Result<(), ServiceError>)
    modifies host
    ensures r == InstallRun(host.world, old(host.files), name, contents).result
    ensures host.log == old(host.log) + InstallRun(host.world, old(host.files), name, contents).steps
    ensures host.files == Apply(host.world, old(host.files), InstallRun(host.world, old(host.files), name, contents).steps)
  {
    if Systemd.ConfigPath(name) in host.files {
      return Err(ServiceError("Service file already exists"));
    }
    r := host.Perform(InstallPlan(name, contents));
  }

  /**
   * The steps of `uninstall`. A failure to spawn `disable` is reported as a
   * failure to stop, and the I/O error of the removal is dropped.
   */
  function UninstallPlan(name: string): seq<Attempt<ServiceError>> {
    var unit := Systemd.UnitName(name);
    [ Reported(Systemctl(["disable", unit]), "Failed to stop " + unit + ": "),
      Attempt(RemoveFile(Systemd.ConfigPath(name)), _ => ServiceError("Failed to remove service file"), None) ]
  }

  method Uninstall(name: string, host: Host) returns (r: Result<(), ServiceError>)
    modifies host
    ensures r == Execute(host.world, UninstallPlan(name)).result
    ensures host.log == old(host.log) + Execute(host.world, UninstallPlan(name)).steps
    ensures host.files == Apply(host.world, old(host.files), Execute(host.world, UninstallPlan(name)).steps)
  {
    r := host.Perform(UninstallPlan(name));
  }

  /** The one `systemctl` call of `start`, `stop` or `restart`. */
  function ControlPlan(verb: string, name: string): seq<Attempt<ServiceError>> {
    var unit := Systemd.UnitName(name);
    [Reported(Systemctl([verb, unit]), "Failed to " + verb + " " + unit + ": ")]
  }

  method Start(name: string, host: Host) returns (r: Result<(), ServiceError>)
    modifies host
    ensures r == Execute(host.world, ControlPlan("start", name)).result
    ensures host.log == old(host.log) + Execute(host.world, ControlPlan("start", name)).steps
    ensures host.files == old(host.files)
  {
    r := host.Perform(ControlPlan("start", name));
    ControlKeepsFiles(host.world, old(host.files), "start", name);
  }

  method Stop(name: string, host: Host) returns (r: Result<(), ServiceError>)
    modifies host
    ensures r == Execute(host.world, ControlPlan("stop", name)).result
    ensures host.log == old(host.log) + Execute(host.world, ControlPlan("stop", name)).steps
    ensures host.files == old(host.files)
  {
    r := host.Perform(ControlPlan("stop", name));
    ControlKeepsFiles(host.world, old(host.files), "stop", name);
  }

  method Restart(name: string, host: Host) returns (r: Result<(), ServiceError>)
    modifies host
    ensures r == Execute(host.world, ControlPlan("restart", name)).result
    ensures host.log == old(host.log) + Execute(host.world, ControlPlan("restart", name)).steps
    ensures host.files == old(host.files)
  {
    r := host.Perform(ControlPlan("restart", name));
    ControlKeepsFiles(host.world, old(host.files), "restart", name);
  }

  /** What `status` does: the exit status of `is-active` is not looked at. */
  function StatusRun(w: World, name: string): Run<Systemd.Status, ServiceError> {
    var unit := Systemd.UnitName(name);
    var active := Systemctl(["is-active", unit]);
    if w.fails(active).Some? then
      Run([active], Err(ServiceError("Failed to get status of " + unit + ": " + w.fails(active).value)))
    else match Systemd.StatusOfToken(Trim(w.answer(active.args).stdout))
      case Some(s) => Run([active], Ok(s))
      case None =>
        var listed := ListingRun(w, name);
        Run([active] + listed.steps, listed.result)
  }

  /** The `list-unit-files` query made for an inactive service; here its exit status is checked. */
  function ListingRun(w: World, name: string): (r: Run<Systemd.Status, ServiceError>)
    ensures r.steps == [Systemctl(Systemd.ListArgs(name))]
    ensures r.result.Ok? <==> w.fails(Systemctl(Systemd.ListArgs(name))).None? && w.answer(Systemd.ListArgs(name)).success
    ensures r.result.Ok? ==>
      r.result.value == Systemd.StatusOfListing(w.answer(Systemd.ListArgs(name)).stdout, Systemd.UnitName(name))
  {
    var unit := Systemd.UnitName(name);
    var listing := Systemctl(Systemd.ListArgs(name));
    if w.fails(listing).Some? then
      Run([listing], Err(ServiceError("Failed to get status of " + unit + ": " + w.fails(listing).value)))
    else if !w.answer(listing.args).success then Run([listing], Err(ServiceError("Failed to get status of " + unit)))
    else Run([listing], Ok(Systemd.StatusOfListing(w.answer(listing.args).stdout, unit)))
  }

  /** `Service::status` for the older `Systemd`. */
  method QueryStatus(name: string, host: Host) returns (r: Result<Systemd.Status, ServiceError>)
    modifies host
    ensures r == StatusRun(host.world, name).result
    ensures host.log == old(host.log) + StatusRun(host.world, name).steps
    ensures host.files == old(host.files)
  {
    var unit := Systemd.UnitName(name);
    ghost var before := host.log;
    var active := host.Run(["is-active", unit]);
    if active.Err? {
      StatusOfUnspawned(host.world, name);
      return Err(ServiceError("Failed to get status of " + unit + ": " + active.error));
    }
    StatusOfAnyAnswer(host.world, name);
    var known := Systemd.StatusOfToken(Trim(active.value.stdout));
    if known.Some? {
      return Ok(known.value);
    }
    r := QueryListing(name, host);
    AppendAssoc(before, [Systemctl(["is-active", unit])], ListingRun(host.world, name).steps);
  }

  /** The `list-unit-files` query of `status`, as `ListingRun` describes it. */
  method QueryListing(name: string, host: Host) returns (r: Result<Systemd.Status, ServiceError>)
    modifies host
    ensures r == ListingRun(host.world, name).result
    ensures host.log == old(host.log) + ListingRun(host.world, name).steps
    ensures host.files == old(host.files)
  {
    var unit := Systemd.UnitName(name);
    var listing := host.Run(Systemd.ListArgs(name));
    if listing.Err? {
      return Err(ServiceError("Failed to get status of " + unit + ": " + listing.error));
    }
    if !listing.value.success {
      return Err(ServiceError("Failed to get status of " + unit));
    }
    return Ok(Systemd.StatusOfListing(listing.value.stdout, unit));
  }

  // ---------------------------------------------------------------------------
  // What the older controller promises
  // ---------------------------------------------------------------------------

  /** Without exit-status checks, a step of a plan ends it exactly when it raises an I/O error. */
  lemma ReportedOutcome(w: World, plan: seq<Attempt<ServiceError>>)
    requires forall j :: 0 <= j < |plan| ==> plan[j].exitFailure.None?
    ensures forall j :: 0 <= j < |plan| ==> (Outcome(w, plan[j]).None? <==> w.fails(plan[j].step).None?)
  {
  }

  /** `install` refuses to overwrite: with the unit file present it attempts nothing. */
  lemma InstallRefusesExistingFile(w: World, files: set<Path>, name: string, contents: string)
    requires Systemd.ConfigPath(name) in files
    ensures InstallRun(w, files, name, contents) == Run([], Err(ServiceError("Service file already exists")))
  {
  }

  /**
   * `install` succeeds exactly when the unit file was absent and each of its
   * five steps could be carried out; how `enable` and `daemon-reload` exit
   * does not matter. It then has made all five steps and the file exists.
   */
  lemma InstallIgnoresExitStatus(w: World, files: set<Path>, name: string, contents: string)
    ensures InstallRun(w, files, name, contents).result.Ok?
      <==> (Systemd.ConfigPath(name) !in files
            && forall j :: 0 <= j < 5 ==> w.fails(InstallPlan(name, contents)[j].step).None?)
    ensures InstallRun(w, files, name, contents).result.Ok? ==>
      && InstallRun(w, files, name, contents).steps == Steps(InstallPlan(name, contents))
      && Apply(w, files, InstallRun(w, files, name, contents).steps) == files + {Systemd.ConfigPath(name)}
  {
    var plan := InstallPlan(name, contents);
    if Systemd.ConfigPath(name) !in files {
      ReportedOutcome(w, plan);
      ExecuteOkIffNoFailure(w, plan);
      if Execute(w, plan).result.Ok? {
        ExecuteCompletes(w, plan);
        Systemd.CreatedFileStays(w, files, Steps(plan));
      }
    }
  }

  /**
   * `uninstall` reports a failure to spawn `disable` as a failure to stop the
   * unit and leaves the file; otherwise, whatever `disable` answered, it
   * removes the file.
   */
  lemma UninstallIgnoresExitStatus(w: World, files: set<Path>, name: string)
    ensures w.fails(Systemctl(["disable", Systemd.UnitName(name)])).Some? ==>
      && Execute(w, UninstallPlan(name)).result == Err(ServiceError(
           "Failed to stop " + Systemd.UnitName(name) + ": " + w.fails(Systemctl(["disable", Systemd.UnitName(name)])).value))
      && Apply(w, files, Execute(w, UninstallPlan(name)).steps) == files
    ensures w.fails(Systemctl(["disable", Systemd.UnitName(name)])).None? ==>
      && (Execute(w, UninstallPlan(name)).result.Ok? <==> w.fails(RemoveFile(Systemd.ConfigPath(name))).None?)
      && Apply(w, files, Execute(w, UninstallPlan(name)).steps)
         == (if w.fails(RemoveFile(Systemd.ConfigPath(name))).None? then files - {Systemd.ConfigPath(name)} else files)
  {
    var d := Systemctl(["disable", Systemd.UnitName(name)]);
    if w.fails(d).None? {
      UninstallAfterDisable(w, files, name);
      var steps := [d, RemoveFile(Systemd.ConfigPath(name))];
      assert steps[..1] == [d] && [d][..0] == [];
      assert Apply(w, files, [d]) == files;
    } else {
      UninstallDisableUnspawned(w, files, name);
      assert [d][..0] == [];
    }
  }

  /** When `disable` cannot be spawned, `uninstall` stops there. */
  lemma UninstallDisableUnspawned(w: World, files: set<Path>, name: string)
    requires w.fails(Systemctl(["disable", Systemd.UnitName(name)])).Some?
    ensures Execute(w, UninstallPlan(name)).steps == [Systemctl(["disable", Systemd.UnitName(name)])]
    ensures Execute(w, UninstallPlan(name)).result == Err(ServiceError(
              "Failed to stop " + Systemd.UnitName(name) + ": " + w.fails(Systemctl(["disable", Systemd.UnitName(name)])).value))
  {
    var plan := UninstallPlan(name);
    assert [plan[0].step][..0] == [];
  }

  /** Once `disable` is spawned, `uninstall` goes on to remove the unit file. */
  lemma UninstallAfterDisable(w: World, files: set<Path>, name: string)
    requires w.fails(Systemctl(["disable", Systemd.UnitName(name)])).None?
    ensures Execute(w, UninstallPlan(name)).steps == [Systemctl(["disable", Systemd.UnitName(name)]), RemoveFile(Systemd.ConfigPath(name))]
    ensures Execute(w, UninstallPlan(name)).result.Ok? <==> w.fails(RemoveFile(Systemd.ConfigPath(name))).None?
  {
    var plan := UninstallPlan(name);
    var d, rm := plan[0].step, plan[1].step;
    assert plan[1..][1..] == [];
    assert plan[1..][0] == plan[1];
    assert Execute(w, plan[1..]).steps == [rm];
  }

  /**
   * `start`, `stop` and `restart` succeed exactly when `systemctl` could be
   * spawned, whatever it answered.
   */
  lemma ControlIgnoresExitStatus(w: World, verb: string, name: string)
    ensures Execute(w, ControlPlan(verb, name)).steps == [Systemctl([verb, Systemd.UnitName(name)])]
    ensures Execute(w, ControlPlan(verb, name)).result.Ok? <==> w.fails(Systemctl([verb, Systemd.UnitName(name)])).None?
  {
    assert ControlPlan(verb, name)[1..] == [];
  }

  lemma ControlKeepsFiles(w: World, files: set<Path>, verb: string, name: string)
    ensures Apply(w, files, Execute(w, ControlPlan(verb, name)).steps) == files
  {
    ControlIgnoresExitStatus(w, verb, name);
    HarmlessStepsKeepFiles(w, files, [Systemctl([verb, Systemd.UnitName(name)])]);
  }

  /** The older `status` never reports `Unknown` and never touches the unit file. */
  lemma StatusNeverUnknown(w: World, files: set<Path>, name: string)
    ensures StatusRun(w, name).result != Ok(Systemd.Unknown)
    ensures Apply(w, files, StatusRun(w, name).steps) == files
  {
    var active := Systemctl(["is-active", Systemd.UnitName(name)]);
    var steps := StatusRun(w, name).steps;
    assert steps == [active] || steps == [active, Systemctl(Systemd.ListArgs(name))];
    HarmlessStepsKeepFiles(w, files, steps);
  }

  /**
   * When `is-active` exits successfully, the older and the newer `status`
   * make the same queries and report the same status; only their error
   * messages differ.
   */
  lemma StatusAgreesOnSuccess(w: World, name: string)
    requires w.answer(["is-active", Systemd.UnitName(name)]).success
    ensures StatusRun(w, name).steps == Systemd.StatusRun(w, name).steps
    ensures StatusRun(w, name).result.Ok? <==> Systemd.StatusRun(w, name).result.Ok?
    ensures StatusRun(w, name).result.Ok? ==> StatusRun(w, name).result.value == Systemd.StatusRun(w, name).result.value
  {
  }

  /**
   * The older `status` does not look at the exit status of `is-active`: two
   * worlds that differ at most in that exit status and its stderr give the
   * same queries and the same result.
   */
  lemma StatusIgnoresExitStatus(w: World, w': World, name: string)
    requires forall step :: w.fails(step) == w'.fails(step)
    requires forall args :: args != ["is-active", Systemd.UnitName(name)] ==> w.answer(args) == w'.answer(args)
    requires w.answer(["is-active", Systemd.UnitName(name)]).stdout == w'.answer(["is-active", Systemd.UnitName(name)]).stdout
    ensures StatusRun(w, name) == StatusRun(w', name)
  {
    var listArgs := Systemd.ListArgs(name);
    assert |listArgs| != |["is-active", Systemd.UnitName(name)]|;
    assert w.answer(listArgs) == w'.answer(listArgs);
    assert w.fails(Systemctl(listArgs)) == w'.fails(Systemctl(listArgs));
    assert w.fails(Systemctl(["is-active", Systemd.UnitName(name)])) == w'.fails(Systemctl(["is-active", Systemd.UnitName(name)]));
  }

  /** An `is-active` that cannot be spawned ends `status` with its I/O error. */
  lemma StatusOfUnspawned(w: World, name: string)
    requires w.fails(Systemctl(["is-active", Systemd.UnitName(name)])).Some?
    ensures StatusRun(w, name) == Run([Systemctl(["is-active", Systemd.UnitName(name)])],
      Err(ServiceError("Failed to get status of " + Systemd.UnitName(name) + ": "
        + w.fails(Systemctl(["is-active", Systemd.UnitName(name)])).value)))
  {
  }

  /**
   * Once `is-active` could be spawned, whatever its exit status, the trimmed
   * state decides: `inactive` gives whatever the listing query gives, and
   * every other state the status it maps to, with no further query.
   */
  lemma StatusOfAnyAnswer(w: World, name: string)
    requires w.fails(Systemctl(["is-active", Systemd.UnitName(name)])).None?
    ensures Systemd.ActiveToken(w, name) == "inactive" ==>
      StatusRun(w, name) == Run([Systemctl(["is-active", Systemd.UnitName(name)])] + ListingRun(w, name).steps,
        ListingRun(w, name).result)
    ensures Systemd.ActiveToken(w, name) != "inactive" ==>
      StatusRun(w, name)
        == Run([Systemctl(["is-active", Systemd.UnitName(name)])], Ok(Systemd.StatusOfToken(Systemd.ActiveToken(w, name)).value))
  {
  }

  /**
   * `systemctl is-active` exits unsuccessfully for a unit that is not active.
   * For such an answer naming an inactive unit, the older `status` goes on to
   * the listing and reports `Stopped` or `NotInstalled`, while the newer one
   * reports a `CommandError`.
   */
  lemma StatusOfInactiveExit(w: World, name: string, stderr: string)
    requires w.fails(Systemctl(["is-active", Systemd.UnitName(name)])).None?
    requires w.answer(["is-active", Systemd.UnitName(name)]) == Output(false, "inactive\n", stderr)
    requires w.fails(Systemctl(Systemd.ListArgs(name))).None? && w.answer(Systemd.ListArgs(name)).success
    ensures StatusRun(w, name).result
      == Ok(Systemd.StatusOfListing(w.answer(Systemd.ListArgs(name)).stdout, Systemd.UnitName(name)))
    ensures Systemd.StatusRun(w, name).result == Err(Systemd.CommandError("Failed to get service status: " + stderr))
  {
    var active := Systemctl(["is-active", Systemd.UnitName(name)]);
    assert active.args == ["is-active", Systemd.UnitName(name)];
    InactiveLine();
    assert Systemd.StatusOfToken(Trim(w.answer(active.args).stdout)).None?;
  }

  /** `systemctl` prints the state on a line of its own; trimming recovers it. */
  lemma InactiveLine()
    ensures Trim("inactive\n") == "inactive"
  {
    assert "inactive\n" == "" + "inactive" + "\n";
    TrimPadded("", "inactive", "\n");
  }
}
