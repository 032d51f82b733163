/**
 * `src/systemd/mod.rs`: the `Config` that joins the three sections into one
 * unit file, the names derived from it, `Status`, and the controller that
 * installs, removes, starts, stops, restarts and queries the service through
 * `systemctl`.
 */
module Systemd {
  import opened Wrappers
  import opened Primitives
  import opened Text
  import opened Macros
  import opened Effects
  import UnitSection
  import ServiceSection
  import InstallSection

  /** `crate::error::Error`; an I/O error carries its rendered text. */
  datatype Error =
    | IoError(message: string)
    | FmtError
    | ValidationError(message: string)
    | CommandError(message: string)

  /** Everything needed to write and manage one service. */
  datatype Config = Config(
    name: string,
    unit: UnitSection.Unit,
    service: ServiceSection.Service,
    install: InstallSection.Install)

  // ---------------------------------------------------------------------------
  // The unit file
  // ---------------------------------------------------------------------------

  /** `Display for Config`: the three sections one after the other. */
  function ConfigText(c: Config): string {
    UnitSection.UnitText(c.unit) + ServiceSection.ServiceText(c.service) + InstallSection.InstallText(c.install)
  }

  method Fmt(c: Config, buf: Formatter)
    modifies buf
    ensures buf.text == old(buf.text) + ConfigText(c)
  {
    Concat3(buf.text, UnitSection.UnitText(c.unit), ServiceSection.ServiceText(c.service), InstallSection.InstallText(c.install));
    UnitSection.Fmt(c.unit, buf);
    ServiceSection.Fmt(c.service, buf);
    InstallSection.Fmt(c.install, buf);
  }

  lemma Concat3(t: string, a: string, b: string, c: string)
    ensures t + a + b + c == t + (a + b + c)
  {
    AppendAssoc(t, a, b);
    AppendAssoc(t, a + b, c);
  }

  /** The lines of the whole file: each section's header, then that section's option lines. */
  function ConfigLines(c: Config): seq<string> {
    (["[Unit]"] + UnitSection.UnitLines(c.unit))
    + (["[Service]"] + ServiceSection.ServiceLines(c.service))
    + (["[Install]"] + InstallSection.InstallLines(c.install))
  }

  /** Nothing is written between or around the sections. */
  lemma ConfigTextLines(c: Config)
    ensures ConfigText(c) == JoinLines(ConfigLines(c))
  {
    SectionsTextLines(c.unit, c.service, c.install);
  }

  lemma SectionsTextLines(u: UnitSection.Unit, s: ServiceSection.Service, i: InstallSection.Install)
    ensures UnitSection.UnitText(u) + ServiceSection.ServiceText(s) + InstallSection.InstallText(i)
      == JoinLines((["[Unit]"] + UnitSection.UnitLines(u)) + (["[Service]"] + ServiceSection.ServiceLines(s))
        + (["[Install]"] + InstallSection.InstallLines(i)))
  {
    var a := ["[Unit]"] + UnitSection.UnitLines(u);
    var b := ["[Service]"] + ServiceSection.ServiceLines(s);
    var c := ["[Install]"] + InstallSection.InstallLines(i);
    UnitSection.UnitTextShape(u);
    JoinLinesAppend(["[Unit]"], UnitSection.UnitLines(u));
    ServiceSection.ServiceTextShape(s);
    JoinLinesAppend(["[Service]"], ServiceSection.ServiceLines(s));
    InstallSection.InstallTextShape(i);
    JoinLinesAppend(["[Install]"], InstallSection.InstallLines(i));
    JoinLinesAppend(a, b);
    JoinLinesAppend(a + b, c);
  }

  /** A configuration with every option absent renders the three headers alone. */
  lemma DefaultConfigText(name: string)
    ensures ConfigText(Config(name, UnitSection.DefaultUnit, ServiceSection.DefaultService, InstallSection.DefaultInstall))
      == "[Unit]\n" + "[Service]\n" + "[Install]\n"
  {
    DefaultSectionTexts();
  }

  lemma DefaultSectionTexts()
    ensures UnitSection.UnitText(UnitSection.DefaultUnit) == "[Unit]\n"
    ensures ServiceSection.ServiceText(ServiceSection.DefaultService) == "[Service]\n"
    ensures InstallSection.InstallText(InstallSection.DefaultInstall) == "[Install]\n"
  {
    UnitSection.DefaultUnitText();
    ServiceSection.DefaultServiceText();
    InstallSection.DefaultInstallText();
  }

  // ---------------------------------------------------------------------------
  // Names
  // ---------------------------------------------------------------------------

  const ServiceSuffix: string := ".service"
  const SystemUnitDirectory: string := "/etc/systemd/system/"

  /** `SERVICE_FILE_PERMISSIONS`, octal 644. */
  const ServiceFilePermissions: nat := 6 * 64 + 4 * 8 + 4

  /** `Config::unit_name`: the service name with the `.service` suffix. */
  function UnitName(name: string): (r: string)
    ensures |r| == |name| + |ServiceSuffix| && r[..|name|] == name && r[|name|..] == ServiceSuffix
  {
    name + ServiceSuffix
  }

  /** `Systemd::config_path`: the unit file in systemd's system unit directory. */
  function ConfigPath(name: string): (r: Path)
    ensures StartsWith(r, SystemUnitDirectory) && r[|SystemUnitDirectory|..] == UnitName(name)
  {
    SystemUnitDirectory + UnitName(name)
  }

  /** Different services get different unit names and different unit files. */
  lemma NamesInjective(a: string, b: string)
    ensures UnitName(a) == UnitName(b) ==> a == b
    ensures ConfigPath(a) == ConfigPath(b) ==> a == b
  {
    if ConfigPath(a) == ConfigPath(b) {
      assert UnitName(a) == ConfigPath(a)[|SystemUnitDirectory|..];
      assert UnitName(b) == ConfigPath(b)[|SystemUnitDirectory|..];
    }
    if UnitName(a) == UnitName(b) {
      assert a == UnitName(a)[..|a|];
      assert b == UnitName(b)[..|b|];
    }
  }

  // ---------------------------------------------------------------------------
  // Status
  // ---------------------------------------------------------------------------

  datatype Status = Running | Stopped | Unknown | NotInstalled | Failed

  /** `Display for Status`. */
  function StatusText(s: Status): string {
    match s
    case Running => "Running"
    case Stopped => "Stopped"
    case Unknown => "Unknown"
    case NotInstalled => "Not installed"
    case Failed => "Failed"
  }

  /** Reads a status back from its text. */
  function ParseStatus(text: string): Option<Status> {
    if text == "Running" then Some(Running)
    else if text == "Stopped" then Some(Stopped)
    else if text == "Unknown" then Some(Unknown)
    else if text == "Not installed" then Some(NotInstalled)
    else if text == "Failed" then Some(Failed)
    else None
  }

  /** Each status has its own text, from which it can be read back. */
  lemma StatusTextRoundTrip(s: Status)
    ensures ParseStatus(StatusText(s)) == Some(s)
  {
    match s
    case Running =>
    case Stopped => assert "Stopped" != "Running";
    case Unknown => assert "Unknown"[0] != "Running"[0] && "Unknown"[0] != "Stopped"[0];
    case NotInstalled =>
    case Failed =>
  }

  /**
   * The match on the trimmed `is-active` answer, shared with the older
   * controller: `None` for `inactive`, which needs the unit-file listing to
   * tell a stopped service from a missing one.
   */
  function StatusOfToken(token: string): (r: Option<Status>)
    ensures r.None? <==> token == "inactive"
    ensures r == Some(Running) <==> token == "active" || token == "activating"
    ensures r == Some(Failed) <==> token == "failed"
    ensures r == Some(NotInstalled) <==>
      token != "active" && token != "activating" && token != "failed" && token != "inactive"
    ensures r != Some(Unknown) && r != Some(Stopped)
  {
    assert "failed"[0] != "active"[0];
    if token == "active" then Some(Running)
    else if token == "inactive" then None
    else if token == "activating" then Some(Running)
    else if token == "failed" then Some(Failed)
    else Some(NotInstalled)
  }

  /** What the unit-file listing says about an inactive service. */
  function StatusOfListing(listing: string, unitName: string): (r: Status)
    ensures r == Stopped <==> Contains(listing, unitName)
    ensures r == Stopped || r == NotInstalled
  {
    if Contains(listing, unitName) then Stopped else NotInstalled
  }

  // ---------------------------------------------------------------------------
  // The controller
  // ---------------------------------------------------------------------------

  /**
   * A `systemctl` call whose failure ends the operation: an `IoError` when the
   * process cannot be spawned, a `CommandError` with its stderr when it exits
   * unsuccessfully.
   */
  function Checked(args: seq<string>, failure: string): Attempt<Error> {
    Attempt(Systemctl(args), e => IoError(e), Some(stderr => CommandError(failure + stderr)))
  }

  /** A file operation whose I/O error ends the operation. */
  function FileStep(step: Step): Attempt<Error> {
    Attempt(step, e => IoError(e), None)
  }

  /** `{:?}` of a path: the path between double quotes. */
  function DebugPath(p: Path): string {
    "\"" + p + "\""
  }

  function AlreadyExists(dst: Path): string {
    "Service file '" + DebugPath(dst) + "' already exists"
  }

  /** The steps of `install` once the unit file is known not to exist yet. */
  function InstallPlan(name: string, contents: string): seq<Attempt<Error>> {
    var dst := ConfigPath(name);
    [ FileStep(CreateFile(dst)),
      FileStep(WriteFile(dst, contents)),
      FileStep(SetPermissions(dst, ServiceFilePermissions)),
      Checked(["enable", UnitName(name)], "Failed to enable service: "),
      Checked(["daemon-reload"], "Failed to reload systemd daemon: ") ]
  }

  /** What `install` does with the rendered unit file `contents` on a host whose existing files are `files`. */
  function InstallRun(w: World, files: set<Path>, name: string, contents: string): Run<(), Error> {
    var dst := ConfigPath(name);
    if dst in files then Run([], Err(ValidationError(AlreadyExists(dst))))
    else Execute(w, InstallPlan(name, contents))
  }

  /** `Systemd::install`: the unit file holds `ConfigText(c)`. */
  method Install(c: Config, host: Host) returns (r: Result<(), Error>)
    modifies host
    ensures var run := InstallRun(host.world, old(host.files), c.name, ConfigText(c));
      && r == run.result
      && host.log == old(host.log) + run.steps
      && host.files == Apply(host.world, old(host.files), run.steps)
  {
    r := InstallFile(c.name, ConfigText(c), host);
  }

  method InstallFile(name: string, contents: string, host: Host) returns (r: Result<(), Error>)
    modifies host
    ensures r == InstallRun(host.world, old(host.files), name, contents).result
    ensures host.log == old(host.log) + InstallRun(host.world, old(host.files), name, contents).steps
    ensures host.files == Apply(host.world, old(host.files), InstallRun(host.world, old(host.files), name, contents).steps)
  {
    var dst := ConfigPath(name);
    if dst in host.files {
      return Err(ValidationError(AlreadyExists(dst)));
    }
    r := host.Perform(InstallPlan(name, contents));
  }

  /** The steps of `uninstall`: disable the unit, then remove its file. */
  function UninstallPlan(name: string): seq<Attempt<Error>> {
    [ Checked(["disable", UnitName(name)], "Failed to disable service: "),
      FileStep(RemoveFile(ConfigPath(name))) ]
  }

  /** `Systemd::uninstall`. */
  method Uninstall(name: string, host: Host) returns (r: Result<(), Error>)
    modifies host
    ensures r == Execute(host.world, UninstallPlan(name)).result
    ensures host.log == old(host.log) + Execute(host.world, UninstallPlan(name)).steps
    ensures host.files == Apply(host.world, old(host.files), Execute(host.world, UninstallPlan(name)).steps)
  {
    r := host.Perform(UninstallPlan(name));
  }

  /** The one `systemctl` call of `start`, `stop` or `restart`. */
  function ControlPlan(verb: string, name: string): seq<Attempt<Error>> {
    [Checked([verb, UnitName(name)], "Failed to " + verb + " service: ")]
  }

  /** `Systemd::start`. */
  method Start(name: string, host: Host) returns (r: Result<(), Error>)
    modifies host
    ensures r == Execute(host.world, ControlPlan("start", name)).result
    ensures host.log == old(host.log) + Execute(host.world, ControlPlan("start", name)).steps
    ensures host.files == old(host.files)
  {
    r := host.Perform(ControlPlan("start", name));
    ControlKeepsFiles(host.world, old(host.files), "start", name);
  }

  /** `Systemd::stop`. */
  method Stop(name: string, host: Host) returns (r: Result<(), Error>)
    modifies host
    ensures r == Execute(host.world, ControlPlan("stop", name)).result
    ensures host.log == old(host.log) + Execute(host.world, ControlPlan("stop", name)).steps
    ensures host.files == old(host.files)
  {
    r := host.Perform(ControlPlan("stop", name));
    ControlKeepsFiles(host.world, old(host.files), "stop", name);
  }

  /** `Systemd::restart`. */
  method Restart(name: string, host: Host) returns (r: Result<(), Error>)
    modifies host
    ensures r == Execute(host.world, ControlPlan("restart", name)).result
    ensures host.log == old(host.log) + Execute(host.world, ControlPlan("restart", name)).steps
    ensures host.files == old(host.files)
  {
    r := host.Perform(ControlPlan("restart", name));
    ControlKeepsFiles(host.world, old(host.files), "restart", name);
  }

  /** The `list-unit-files` query that tells a stopped service from a missing one. */
  function ListArgs(name: string): seq<string> {
    ["list-unit-files", "-t", "service", UnitName(name)]
  }

  /** What `status` does: it only queries `systemctl`. */
  function StatusRun(w: World, name: string): Run<Status, Error> {
    var active := Systemctl(["is-active", UnitName(name)]);
    if w.fails(active).Some? then Run([active], Err(IoError(w.fails(active).value)))
    else if !w.answer(active.args).success then
      Run([active], Err(CommandError("Failed to get service status: " + w.answer(active.args).stderr)))
    else match StatusOfToken(Trim(w.answer(active.args).stdout))
      case Some(s) => Run([active], Ok(s))
      case None =>
        var listed := ListingRun(w, name);
        Run([active] + listed.steps, listed.result)
  }

  /** The `list-unit-files` query made for an inactive service. */
  function ListingRun(w: World, name: string): (r: Run<Status, Error>)
    ensures r.steps == [Systemctl(ListArgs(name))]
    ensures r.result.Ok? <==> w.fails(Systemctl(ListArgs(name))).None? && w.answer(ListArgs(name)).success
    ensures r.result.Ok? ==> r.result.value == StatusOfListing(w.answer(ListArgs(name)).stdout, UnitName(name))
  {
    var listing := Systemctl(ListArgs(name));
    if w.fails(listing).Some? then Run([listing], Err(IoError(w.fails(listing).value)))
    else if !w.answer(listing.args).success then
      Run([listing], Err(CommandError("Failed to list unit files: " + w.answer(listing.args).stderr)))
    else Run([listing], Ok(StatusOfListing(w.answer(listing.args).stdout, UnitName(name))))
  }

  /** `Systemd::status`, named apart from the `Status` type. */
  method QueryStatus(name: string, host: Host) returns (r: Result<Status, Error>)
    modifies host
    ensures r == StatusRun(host.world, name).result
    ensures host.log == old(host.log) + StatusRun(host.world, name).steps
    ensures host.files == old(host.files)
  {
    var unit := UnitName(name);
    ghost var before := host.log;
    var active := host.Run(["is-active", unit]);
    if active.Err? {
      StatusOfUnspawned(host.world, name);
      return Err(IoError(active.error));
    }
    if !active.value.success {
      StatusFailsOnUnsuccessfulExit(host.world, name);
      return Err(CommandError("Failed to get service status: " + active.value.stderr));
    }
    StatusOfSuccessfulAnswer(host.world, name);
    var token := Trim(active.value.stdout);
    var known := StatusOfToken(token);
    if known.Some? {
      return Ok(known.value);
    }
    r := QueryListing(name, host);
    AppendAssoc(before, [Systemctl(["is-active", unit])], ListingRun(host.world, name).steps);
  }

  /** The `list-unit-files` query of `status`, as `ListingRun` describes it. */
  method QueryListing(name: string, host: Host) returns (r: Result<Status, Error>)
    modifies host
    ensures r == ListingRun(host.world, name).result
    ensures host.log == old(host.log) + ListingRun(host.world, name).steps
    ensures host.files == old(host.files)
  {
    var listing := host.Run(ListArgs(name));
    if listing.Err? {
      return Err(IoError(listing.error));
    }
    if !listing.value.success {
      return Err(CommandError("Failed to list unit files: " + listing.value.stderr));
    }
    return Ok(StatusOfListing(listing.value.stdout, UnitName(name)));
  }

  // ---------------------------------------------------------------------------
  // What the controller promises
  // ---------------------------------------------------------------------------

  /** `install` refuses to overwrite: with the unit file present it attempts nothing. */
  lemma InstallRefusesExistingFile(w: World, files: set<Path>, name: string, contents: string)
    requires ConfigPath(name) in files
    ensures InstallRun(w, files, name, contents) == Run([], Err(ValidationError(AlreadyExists(ConfigPath(name)))))
  {
  }

  /**
   * `install` succeeds exactly when the unit file was absent and none of its
   * steps fails; it then has created the file, written the rendered
   * configuration into it, made it readable, enabled the unit and reloaded
   * the daemon, in that order, and the file exists.
   */
  lemma InstallSucceeds(w: World, files: set<Path>, name: string, contents: string)
    ensures InstallRun(w, files, name, contents).result.Ok?
      <==> ConfigPath(name) !in files && forall j :: 0 <= j < 5 ==> Outcome(w, InstallPlan(name, contents)[j]).None?
    ensures InstallRun(w, files, name, contents).result.Ok? ==>
      && InstallRun(w, files, name, contents).steps == [
           CreateFile(ConfigPath(name)),
           WriteFile(ConfigPath(name), contents),
           SetPermissions(ConfigPath(name), ServiceFilePermissions),
           Systemctl(["enable", UnitName(name)]),
           Systemctl(["daemon-reload"])]
      && Apply(w, files, InstallRun(w, files, name, contents).steps) == files + {ConfigPath(name)}
  {
    var plan := InstallPlan(name, contents);
    if ConfigPath(name) !in files {
      ExecuteOkIffNoFailure(w, plan);
      if Execute(w, plan).result.Ok? {
        ExecuteCompletes(w, plan);
        CreatedFileStays(w, files, Steps(plan));
      }
    }
  }

  /** A file created by a first step that went through is still there after steps that touch no file. */
  lemma CreatedFileStays(w: World, files: set<Path>, steps: seq<Step>)
    requires |steps| > 0 && steps[0].CreateFile? && w.fails(steps[0]).None?
    requires forall i :: 1 <= i < |steps| ==> Harmless(steps[i])
    ensures Apply(w, files, steps) == files + {steps[0].path}
  {
    assert steps == [steps[0]] + steps[1..];
    HarmlessStepsKeepFiles(w, Apply(w, files, [steps[0]]), steps[1..]);
    ApplyAppend(w, files, [steps[0]], steps[1..]);
    assert [steps[0]][..0] == [];
  }

  /**
   * When `systemctl enable` exits unsuccessfully, `install` reports its stderr
   * and does not reload the daemon, and the unit file it wrote stays behind.
   */
  lemma InstallEnableFailureLeavesFile(w: World, files: set<Path>, name: string, contents: string)
    requires ConfigPath(name) !in files
    requires w.fails(CreateFile(ConfigPath(name))).None?
    requires w.fails(WriteFile(ConfigPath(name), contents)).None?
    requires w.fails(SetPermissions(ConfigPath(name), ServiceFilePermissions)).None?
    requires w.fails(Systemctl(["enable", UnitName(name)])).None?
    requires !w.answer(["enable", UnitName(name)]).success
    ensures InstallRun(w, files, name, contents).result
      == Err(CommandError("Failed to enable service: " + w.answer(["enable", UnitName(name)]).stderr))
    ensures Systemctl(["daemon-reload"]) !in InstallRun(w, files, name, contents).steps
    ensures ConfigPath(name) in Apply(w, files, InstallRun(w, files, name, contents).steps)
  {
    var plan := InstallPlan(name, contents);
    ExecuteStopsAtFirstFailure(w, plan, 3);
    CreatedFileStays(w, files, Steps(plan)[..4]);
  }

  /**
   * `uninstall` disables the unit before it touches the file: when `disable`
   * fails the file stays, and when it succeeds the result is that of removing
   * the file, after which the file is gone.
   */
  lemma UninstallDisablesFirst(w: World, files: set<Path>, name: string)
    ensures Execute(w, UninstallPlan(name)).steps[0] == Systemctl(["disable", UnitName(name)])
    ensures Outcome(w, UninstallPlan(name)[0]).Some? ==>
      && Execute(w, UninstallPlan(name)).result == Err(Outcome(w, UninstallPlan(name)[0]).value)
      && Apply(w, files, Execute(w, UninstallPlan(name)).steps) == files
    ensures Outcome(w, UninstallPlan(name)[0]).None? ==>
      && (Execute(w, UninstallPlan(name)).result.Ok? <==> w.fails(RemoveFile(ConfigPath(name))).None?)
      && Apply(w, files, Execute(w, UninstallPlan(name)).steps)
         == (if w.fails(RemoveFile(ConfigPath(name))).None? then files - {ConfigPath(name)} else files)
  {
    var plan := UninstallPlan(name);
    var d := plan[0].step;
    var rm := plan[1].step;
    assert plan[1..][1..] == [];
    if Outcome(w, plan[0]).None? {
      assert plan[1..][0] == plan[1];
      assert Execute(w, plan[1..]).steps == [rm];
      assert Execute(w, plan).steps == [d, rm];
      assert [d, rm][..1] == [d];
      assert [d][..0] == [];
      assert Apply(w, files, [d]) == files;
    } else {
      assert Execute(w, plan).steps == [d];
      assert [d][..0] == [];
    }
  }

  /**
   * `start`, `stop` and `restart` run one `systemctl` command on the unit and
   * succeed exactly when it could be spawned and exited successfully; a failed
   * exit is reported with its stderr.
   */
  lemma ControlOutcome(w: World, verb: string, name: string)
    ensures Execute(w, ControlPlan(verb, name)).steps == [Systemctl([verb, UnitName(name)])]
    ensures Execute(w, ControlPlan(verb, name)).result.Ok?
      <==> w.fails(Systemctl([verb, UnitName(name)])).None? && w.answer([verb, UnitName(name)]).success
    ensures w.fails(Systemctl([verb, UnitName(name)])).None? && !w.answer([verb, UnitName(name)]).success ==>
      Execute(w, ControlPlan(verb, name)).result
        == Err(CommandError("Failed to " + verb + " service: " + w.answer([verb, UnitName(name)]).stderr))
  {
    assert ControlPlan(verb, name)[1..] == [];
  }

  /** `start`, `stop` and `restart` never touch the unit file. */
  lemma ControlKeepsFiles(w: World, files: set<Path>, verb: string, name: string)
    ensures Apply(w, files, Execute(w, ControlPlan(verb, name)).steps) == files
  {
    ControlOutcome(w, verb, name);
    HarmlessStepsKeepFiles(w, files, [Systemctl([verb, UnitName(name)])]);
  }

  /** `status` never reports `Unknown`, and reports `Stopped` only after the listing found the unit. */
  lemma StatusNeverUnknown(w: World, name: string)
    ensures StatusRun(w, name).result != Ok(Unknown)
    ensures StatusRun(w, name).result == Ok(Stopped) ==>
      |StatusRun(w, name).steps| == 2 && Contains(w.answer(ListArgs(name)).stdout, UnitName(name))
  {
  }

  /**
   * The listing is queried exactly when `is-active` ran, exited successfully
   * and answered `inactive`; `status` never touches the unit file.
   */
  lemma StatusQueriesListingOnlyWhenInactive(w: World, files: set<Path>, name: string)
    ensures 1 <= |StatusRun(w, name).steps| <= 2
    ensures StatusRun(w, name).steps[0] == Systemctl(["is-active", UnitName(name)])
    ensures |StatusRun(w, name).steps| == 2 <==>
      && w.fails(Systemctl(["is-active", UnitName(name)])).None?
      && w.answer(["is-active", UnitName(name)]).success
      && Trim(w.answer(["is-active", UnitName(name)]).stdout) == "inactive"
    ensures Apply(w, files, StatusRun(w, name).steps) == files
  {
    var steps := StatusRun(w, name).steps;
    HarmlessStepsKeepFiles(w, files, steps);
  }

  /** The state `is-active` printed, with surrounding whitespace trimmed. */
  function ActiveToken(w: World, name: string): string {
    Trim(w.answer(["is-active", UnitName(name)]).stdout)
  }

  /** An `is-active` that cannot be spawned ends `status` with its I/O error. */
  lemma StatusOfUnspawned(w: World, name: string)
    requires w.fails(Systemctl(["is-active", UnitName(name)])).Some?
    ensures StatusRun(w, name) == Run([Systemctl(["is-active", UnitName(name)])],
      Err(IoError(w.fails(Systemctl(["is-active", UnitName(name)])).value)))
  {
  }

  /**
   * An `is-active` that exits unsuccessfully ends `status` with a
   * `CommandError` carrying its stderr, whatever it printed: no status is read
   * and no listing is made.
   */
  lemma StatusFailsOnUnsuccessfulExit(w: World, name: string)
    requires w.fails(Systemctl(["is-active", UnitName(name)])).None?
    requires !w.answer(["is-active", UnitName(name)]).success
    ensures StatusRun(w, name) == Run([Systemctl(["is-active", UnitName(name)])],
      Err(CommandError("Failed to get service status: " + w.answer(["is-active", UnitName(name)]).stderr)))
  {
  }

  /**
   * On a successful `is-active`, the trimmed state decides: `active` and
   * `activating` give `Running`, `failed` gives `Failed`, `inactive` gives
   * whatever the listing query gives, and every other state `NotInstalled`.
   */
  lemma StatusOfSuccessfulAnswer(w: World, name: string)
    requires w.fails(Systemctl(["is-active", UnitName(name)])).None?
    requires w.answer(["is-active", UnitName(name)]).success
    ensures ActiveToken(w, name) == "inactive" ==>
      StatusRun(w, name) == Run([Systemctl(["is-active", UnitName(name)])] + ListingRun(w, name).steps,
        ListingRun(w, name).result)
    ensures ActiveToken(w, name) != "inactive" ==>
      StatusRun(w, name) == Run([Systemctl(["is-active", UnitName(name)])], Ok(StatusOfToken(ActiveToken(w, name)).value))
    ensures StatusRun(w, name).result == Ok(Running) <==>
      ActiveToken(w, name) == "active" || ActiveToken(w, name) == "activating"
    ensures StatusRun(w, name).result == Ok(Failed) <==> ActiveToken(w, name) == "failed"
    ensures
      ActiveToken(w, name) != "active" && ActiveToken(w, name) != "activating"
      && ActiveToken(w, name) != "failed" && ActiveToken(w, name) != "inactive"
      ==> StatusRun(w, name).result == Ok(NotInstalled)
  {
    var token := ActiveToken(w, name);
    if token == "inactive" {
      assert StatusOfToken(token).None?;
      var listed := ListingRun(w, name);
      assert listed.result.Ok? ==> listed.result.value == Stopped || listed.result.value == NotInstalled;
    }
  }

  /**
   * When `is-active` succeeds and prints a state other than `inactive` on a
   * line of its own, the status is the one the state maps to.
   */
  lemma StatusOfAnswer(w: World, name: string, token: string)
    requires w.fails(Systemctl(["is-active", UnitName(name)])).None?
    requires w.answer(["is-active", UnitName(name)]) == Output(true, token + "\n", "")
    requires |token| > 0 && !IsWhitespace(token[0]) && !IsWhitespace(token[|token| - 1])
    requires token != "inactive"
    ensures StatusRun(w, name) == Run([Systemctl(["is-active", UnitName(name)])], Ok(StatusOfToken(token).value))
  {
    assert token + "\n" == "" + token + "\n";
    TrimPadded("", token, "\n");
  }

  /** The states `systemctl is-active` reports, and the status each becomes. */
  lemma StatusOfStates()
    ensures StatusOfToken("active") == Some(Running)
    ensures StatusOfToken("activating") == Some(Running)
    ensures StatusOfToken("failed") == Some(Failed)
    ensures StatusOfToken("reloading") == Some(NotInstalled)
    ensures StatusOfToken("deactivating") == Some(NotInstalled)
  {
    assert "activating" != "active" && "activating" != "inactive";
    assert "failed"[0] != "active"[0] && "failed"[0] != "inactive"[0] && "failed"[0] != "activating"[0];
    assert "reloading"[0] != "active"[0] && "reloading"[0] != "inactive"[0];
    assert "reloading"[0] != "activating"[0] && "reloading"[0] != "failed"[0];
    assert "deactivating"[0] != "active"[0] && "deactivating"[0] != "inactive"[0];
    assert "deactivating"[0] != "activating"[0] && "deactivating"[0] != "failed"[0];
  }
}
