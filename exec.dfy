/**
 * The execution-environment options of `src/systemd/exec.rs`: the all-optional
 * `Exec` record, its rendering (no section header of its own), `Exec::validate`
 * and the builder setters.
 */
module ExecSection {
  import opened Wrappers
  import opened Primitives
  import opened Text
  import opened Macros
  import opened Checks

  /** Every execution-environment option; `None` means the line is omitted. */
  datatype Exec = Exec(
    workingDirectory: Option<Path>,
    rootDirectory: Option<Path>,
    rootImage: Option<Path>,
    rootImageOptions: Option<seq<string>>,
    rootVerity: Option<Path>,
    rootHash: Option<string>,
    rootHashSignature: Option<Path>,
    rootHashSignatureKey: Option<Path>,
    rootHashSignaturePcrPrivateKey: Option<Path>,
    rootHashSignaturePcrPublicKey: Option<Path>,
    rootEphemeral: Option<bool>,
    user: Option<string>,
    group: Option<string>,
    supplementaryGroups: Option<seq<string>>,
    pamName: Option<string>,
    environment: Option<seq<string>>,
    environmentFile: Option<seq<Path>>,
    passEnvironment: Option<seq<string>>,
    unsetEnvironment: Option<seq<string>>,
    limitCpu: Option<string>,
    limitFsize: Option<string>,
    noNewPrivileges: Option<bool>,
    privateTmp: Option<bool>,
    privateDevices: Option<bool>,
    protectKernelTunables: Option<bool>,
    protectKernelModules: Option<bool>,
    protectControlGroups: Option<bool>,
    capabilityBoundingSet: Option<seq<string>>,
    ambientCapabilities: Option<seq<string>>,
    nice: Option<i32>,
    oomScoreAdjust: Option<i32>,
    readWritePaths: Option<seq<Path>>,
    readOnlyPaths: Option<seq<Path>>,
    inaccessiblePaths: Option<seq<Path>>,
    privateNetwork: Option<bool>,
    networkNamespacePath: Option<Path>
  )

  /** `Exec::default()`: every field absent. */
  const DefaultExec: Exec := Exec(Option.None, Option.None, Option.None, Option.None, Option.None, Option.None, Option.None, Option.None, Option.None, Option.None, Option.None, Option.None, Option.None, Option.None, Option.None, Option.None, Option.None, Option.None, Option.None, Option.None, Option.None, Option.None, Option.None, Option.None, Option.None, Option.None, Option.None, Option.None, Option.None, Option.None, Option.None, Option.None, Option.None, Option.None, Option.None, Option.None)

  // ---------------------------------------------------------------------------
  // Rendering
  // ---------------------------------------------------------------------------

  /** The formatter invocations of `Display for Exec`, in source order. */
  function ExecFields(e: Exec): seq<Field> {
    PathFields(e) + IdentityFields(e) + EnvironmentFields(e) + LimitFields(e)
    + SecurityFields(e) + CapabilityFields(e) + ProcessFields(e) + FileSystemFields(e)
    + NetworkFields(e)
  }

  /** Path settings. */
  function PathFields(e: Exec): seq<Field> {
    [
      Scalar("WorkingDirectory", e.workingDirectory),
      Scalar("RootDirectory", e.rootDirectory),
      Scalar("RootImage", e.rootImage),
      Joined("RootImageOptions", e.rootImageOptions),
      Scalar("RootVerity", e.rootVerity),
      Scalar("RootHash", e.rootHash),
      Scalar("RootHashSignature", e.rootHashSignature),
      Scalar("RootHashSignature", e.rootHashSignatureKey),
      Scalar("RootHashSignature", e.rootHashSignaturePcrPrivateKey),
      Scalar("RootHashSignature", e.rootHashSignaturePcrPublicKey),
      Flag("RootEphemeral", e.rootEphemeral)
    ]
  }

  /** User/Group settings. */
  function IdentityFields(e: Exec): seq<Field> {
    [
      Scalar("User", e.user),
      Scalar("Group", e.group),
      Joined("SupplementaryGroups", e.supplementaryGroups),
      Scalar("PAMName", e.pamName)
    ]
  }

  /** Environment settings. */
  function EnvironmentFields(e: Exec): seq<Field> {
    [
      Joined("Environment", e.environment),
      PerLine("EnvironmentFile", e.environmentFile),
      Joined("PassEnvironment", e.passEnvironment),
      Joined("UnsetEnvironment", e.unsetEnvironment)
    ]
  }

  /** Resource limits. */
  function LimitFields(e: Exec): seq<Field> {
    [
      Scalar("LimitCPU", e.limitCpu),
      Scalar("LimitFSIZE", e.limitFsize)
    ]
  }

  /** Security settings. */
  function SecurityFields(e: Exec): seq<Field> {
    [
      Flag("NoNewPrivileges", e.noNewPrivileges),
      Flag("PrivateTmp", e.privateTmp),
      Flag("PrivateDevices", e.privateDevices),
      Flag("ProtectKernelTunables", e.protectKernelTunables),
      Flag("ProtectKernelModules", e.protectKernelModules),
      Flag("ProtectControlGroups", e.protectControlGroups)
    ]
  }

  /** Capability settings. */
  function CapabilityFields(e: Exec): seq<Field> {
    [
      Joined("CapabilityBoundingSet", e.capabilityBoundingSet),
      Joined("AmbientCapabilities", e.ambientCapabilities)
    ]
  }

  /** Process settings. */
  function ProcessFields(e: Exec): seq<Field> {
    [
      Scalar("Nice", SignedNumber(e.nice)),
      Scalar("OOMScoreAdjust", SignedNumber(e.oomScoreAdjust))
    ]
  }

  /** File system settings. */
  function FileSystemFields(e: Exec): seq<Field> {
    [
      PerLine("ReadWritePaths", e.readWritePaths),
      PerLine("ReadOnlyPaths", e.readOnlyPaths),
      PerLine("InaccessiblePaths", e.inaccessiblePaths)
    ]
  }

  /** Network settings. */
  function NetworkFields(e: Exec): seq<Field> {
    [
      Flag("PrivateNetwork", e.privateNetwork),
      Scalar("NetworkNamespacePath", e.networkNamespacePath)
    ]
  }

  /** The option lines `Display for Exec` writes. */
  function ExecLines(e: Exec): seq<string> {
    FieldsLines(ExecFields(e))
  }

  /** `Display for Exec`: the option lines alone, with no section header. */
  function ExecText(e: Exec): string {
    JoinLines(ExecLines(e))
  }

  method Fmt(e: Exec, buf: Formatter)
    modifies buf
    ensures buf.text == old(buf.text) + ExecText(e)
  {
    buf.WriteFields(ExecFields(e));
  }

  /** The option lines come out group by group, in the order of the source's sections. */
  lemma ExecLinesByGroup(e: Exec)
    ensures ExecLines(e) ==
      FieldsLines(PathFields(e)) + FieldsLines(IdentityFields(e)) + FieldsLines(EnvironmentFields(e))
      + FieldsLines(LimitFields(e)) + FieldsLines(SecurityFields(e)) + FieldsLines(CapabilityFields(e))
      + FieldsLines(ProcessFields(e)) + FieldsLines(FileSystemFields(e)) + FieldsLines(NetworkFields(e))
  {
    FieldsLinesAppend(PathFields(e), IdentityFields(e));
    FieldsLinesAppend(PathFields(e) + IdentityFields(e), EnvironmentFields(e));
    FieldsLinesAppend(PathFields(e) + IdentityFields(e) + EnvironmentFields(e), LimitFields(e));
    FieldsLinesAppend(PathFields(e) + IdentityFields(e) + EnvironmentFields(e) + LimitFields(e), SecurityFields(e));
    FieldsLinesAppend(PathFields(e) + IdentityFields(e) + EnvironmentFields(e) + LimitFields(e) + SecurityFields(e), CapabilityFields(e));
    FieldsLinesAppend(PathFields(e) + IdentityFields(e) + EnvironmentFields(e) + LimitFields(e) + SecurityFields(e) + CapabilityFields(e), ProcessFields(e));
    FieldsLinesAppend(PathFields(e) + IdentityFields(e) + EnvironmentFields(e) + LimitFields(e) + SecurityFields(e) + CapabilityFields(e) + ProcessFields(e), FileSystemFields(e));
    FieldsLinesAppend(PathFields(e) + IdentityFields(e) + EnvironmentFields(e) + LimitFields(e) + SecurityFields(e) + CapabilityFields(e) + ProcessFields(e) + FileSystemFields(e), NetworkFields(e));
  }

  lemma DefaultPathFieldsSilent()
    ensures FieldsLines(PathFields(DefaultExec)) == []
  {
    UnsetFieldsWriteNothing(PathFields(DefaultExec));
  }

  lemma DefaultIdentityFieldsSilent()
    ensures FieldsLines(IdentityFields(DefaultExec)) == []
  {
    UnsetFieldsWriteNothing(IdentityFields(DefaultExec));
  }

  lemma DefaultEnvironmentFieldsSilent()
    ensures FieldsLines(EnvironmentFields(DefaultExec)) == []
  {
    UnsetFieldsWriteNothing(EnvironmentFields(DefaultExec));
  }

  lemma DefaultLimitFieldsSilent()
    ensures FieldsLines(LimitFields(DefaultExec)) == []
  {
    UnsetFieldsWriteNothing(LimitFields(DefaultExec));
  }

  lemma DefaultSecurityFieldsSilent()
    ensures FieldsLines(SecurityFields(DefaultExec)) == []
  {
    UnsetFieldsWriteNothing(SecurityFields(DefaultExec));
  }

  lemma DefaultCapabilityFieldsSilent()
    ensures FieldsLines(CapabilityFields(DefaultExec)) == []
  {
    UnsetFieldsWriteNothing(CapabilityFields(DefaultExec));
  }

  lemma DefaultProcessFieldsSilent()
    ensures FieldsLines(ProcessFields(DefaultExec)) == []
  {
    UnsetFieldsWriteNothing(ProcessFields(DefaultExec));
  }

  lemma DefaultFileSystemFieldsSilent()
    ensures FieldsLines(FileSystemFields(DefaultExec)) == []
  {
    UnsetFieldsWriteNothing(FileSystemFields(DefaultExec));
  }

  lemma DefaultNetworkFieldsSilent()
    ensures FieldsLines(NetworkFields(DefaultExec)) == []
  {
    UnsetFieldsWriteNothing(NetworkFields(DefaultExec));
  }

  /** With no field set nothing at all is written, not even a header. */
  lemma DefaultExecText()
    ensures ExecText(DefaultExec) == ""
  {
    DefaultPathFieldsSilent();
    DefaultIdentityFieldsSilent();
    DefaultEnvironmentFieldsSilent();
    DefaultLimitFieldsSilent();
    DefaultSecurityFieldsSilent();
    DefaultCapabilityFieldsSilent();
    DefaultProcessFieldsSilent();
    DefaultFileSystemFieldsSilent();
    DefaultNetworkFieldsSilent();
    ExecLinesByGroup(DefaultExec);
  }

  lemma ProcessNumbersRenderSigned(e: Exec)
    ensures e.nice.Some? ==> "Nice" + "=" + SignedDecimal(e.nice.value) in FieldsLines(ProcessFields(e))
    ensures e.oomScoreAdjust.Some? ==> "OOMScoreAdjust" + "=" + SignedDecimal(e.oomScoreAdjust.value) in FieldsLines(ProcessFields(e))
  {
    if e.nice.Some? {
      FieldLinesWritten(ProcessFields(e), 0);
      assert "Nice" + "=" + SignedDecimal(e.nice.value) in FieldLines(ProcessFields(e)[0]);
    }
    if e.oomScoreAdjust.Some? {
      FieldLinesWritten(ProcessFields(e), 1);
      assert "OOMScoreAdjust" + "=" + SignedDecimal(e.oomScoreAdjust.value) in FieldLines(ProcessFields(e)[1]);
    }
  }

  /**
   * `EnvironmentFile` and the three path lists are written one `Key=path` line
   * per element, in order; `Environment` and the two capability lists are
   * written space-joined on a single line.
   */
  lemma ExecLineForms(e: Exec)
    ensures e.environmentFile.Some? ==> FieldLines(EnvironmentFields(e)[1]) == KeyLines("EnvironmentFile", e.environmentFile.value)
    ensures e.readWritePaths.Some? ==> FieldLines(FileSystemFields(e)[0]) == KeyLines("ReadWritePaths", e.readWritePaths.value)
    ensures e.readOnlyPaths.Some? ==> FieldLines(FileSystemFields(e)[1]) == KeyLines("ReadOnlyPaths", e.readOnlyPaths.value)
    ensures e.inaccessiblePaths.Some? ==> FieldLines(FileSystemFields(e)[2]) == KeyLines("InaccessiblePaths", e.inaccessiblePaths.value)
    ensures e.environment.Some? && |e.environment.value| > 0 ==>
      FieldLines(EnvironmentFields(e)[0]) == ["Environment" + "=" + Join(e.environment.value, " ")]
    ensures e.capabilityBoundingSet.Some? && |e.capabilityBoundingSet.value| > 0 ==>
      FieldLines(CapabilityFields(e)[0]) == ["CapabilityBoundingSet" + "=" + Join(e.capabilityBoundingSet.value, " ")]
    ensures e.ambientCapabilities.Some? && |e.ambientCapabilities.value| > 0 ==>
      FieldLines(CapabilityFields(e)[1]) == ["AmbientCapabilities" + "=" + Join(e.ambientCapabilities.value, " ")]
  {
  }

  /**
   * The four root-hash-signature fields are all written under the key
   * `RootHashSignature`: an `Exec` holding a path in any one of them renders
   * the same single line, so the text does not say which field was set.
   */
  /** The signature path set in one of the four signature fields, nothing else. */
  function SignatureOnly(which: nat, p: Path): (e: Exec)
    requires which < 4
  {
    DefaultExec.(
      rootHashSignature := if which == 0 then Some(p) else None,
      rootHashSignatureKey := if which == 1 then Some(p) else None,
      rootHashSignaturePcrPrivateKey := if which == 2 then Some(p) else None,
      rootHashSignaturePcrPublicKey := if which == 3 then Some(p) else None)
  }

  /** Only the path group of `e` writes anything. */
  lemma OnlyPathGroupWrites(e: Exec)
    requires FieldsLines(IdentityFields(e)) == [] && FieldsLines(EnvironmentFields(e)) == []
    requires FieldsLines(LimitFields(e)) == [] && FieldsLines(SecurityFields(e)) == []
    requires FieldsLines(CapabilityFields(e)) == [] && FieldsLines(ProcessFields(e)) == []
    requires FieldsLines(FileSystemFields(e)) == [] && FieldsLines(NetworkFields(e)) == []
    ensures ExecLines(e) == FieldsLines(PathFields(e))
  {
    ExecLinesByGroup(e);
  }

  lemma SignaturePathLines(which: nat, p: Path)
    requires which < 4
    ensures FieldsLines(PathFields(SignatureOnly(which, p))) == ["RootHashSignature" + "=" + p]
  {
    var fs := PathFields(SignatureOnly(which, p));
    assert forall j :: 0 <= j < |fs| && j != 6 + which ==> Unset(fs[j]);
    OnlyFieldWrites(fs, 6 + which);
  }

  lemma RootHashSignatureSharedKey(which: nat, p: Path)
    requires which < 4
    ensures ExecLines(SignatureOnly(which, p)) == ["RootHashSignature" + "=" + p]
  {
    var e := SignatureOnly(which, p);
    assert IdentityFields(e) == IdentityFields(DefaultExec);
    assert EnvironmentFields(e) == EnvironmentFields(DefaultExec);
    assert LimitFields(e) == LimitFields(DefaultExec);
    assert SecurityFields(e) == SecurityFields(DefaultExec);
    assert CapabilityFields(e) == CapabilityFields(DefaultExec);
    assert ProcessFields(e) == ProcessFields(DefaultExec);
    assert FileSystemFields(e) == FileSystemFields(DefaultExec);
    assert NetworkFields(e) == NetworkFields(DefaultExec);
    DefaultIdentityFieldsSilent();
    DefaultEnvironmentFieldsSilent();
    DefaultLimitFieldsSilent();
    DefaultSecurityFieldsSilent();
    DefaultCapabilityFieldsSilent();
    DefaultProcessFieldsSilent();
    DefaultFileSystemFieldsSilent();
    DefaultNetworkFieldsSilent();
    OnlyPathGroupWrites(e);
    SignaturePathLines(which, p);
  }

  // ---------------------------------------------------------------------------
  // Exec::validate
  // ---------------------------------------------------------------------------

  /** A scalar range check: an absent value passes, a present one must lie in `[lo, hi]`. */
  function CheckRange(o: Option<i32>, lo: int, hi: int, msg: int -> string): Result<(), string> {
    match o
    case None => Ok(())
    case Some(n) => if n < lo || n > hi then Err(msg(n)) else Ok(())
  }

  predicate InRange(o: Option<i32>, lo: int, hi: int) {
    o.Some? ==> lo <= o.value <= hi
  }

  function NiceError(n: int): string {
    "Nice level " + SignedDecimal(n) + " must be between -20 and 19"
  }

  function OomScoreAdjustError(n: int): string {
    "OOMScoreAdjust " + SignedDecimal(n) + " must be between -1000 and 1000"
  }

  /**
   * The environment loop's test: the entry contains `=`, and `splitn(2, '=')`
   * gives two parts of which the first, the variable name, is non-empty.
   */
  predicate IsEnvironmentAssignment(entry: string) {
    '=' in entry && |SplitOnce(entry, '=')| == 2 && |SplitOnce(entry, '=')[0]| > 0
  }

  /** The message depends on which of the loop's two tests the entry failed. */
  function EnvironmentError(entry: string): string {
    if '=' !in entry then "Environment variable '" + entry + "' must be in KEY=VALUE format"
    else "Invalid environment variable format: '" + entry + "'"
  }

  predicate HasNoEquals(name: string) {
    '=' !in name
  }

  function PassEnvironmentError(name: string): string {
    "PassEnvironment variable '" + name + "' should not contain '='"
  }

  function UnsetEnvironmentError(name: string): string {
    "UnsetEnvironment variable '" + name + "' should not contain '='"
  }

  predicate HasCapPrefix(cap: string) {
    StartsWith(cap, "CAP_")
  }

  function CapabilityError(cap: string): string {
    "Capability '" + cap + "' must start with 'CAP_'"
  }

  predicate IsNonEmpty(s: string) {
    |s| > 0
  }

  function SupplementaryGroupError(group: string): string {
    "Supplementary group names cannot be empty"
  }

  function RootImageOptionError(option: string): string {
    "RootImageOptions cannot contain empty strings"
  }

  /** The two scalar range checks at the head of `validate`. */
  function CheckLevels(e: Exec): (r: Result<(), string>)
    ensures r.Ok? <==> InRange(e.nice, -20, 19) && InRange(e.oomScoreAdjust, -1000, 1000)
  {
    AndThen(CheckRange(e.nice, -20, 19, NiceError),
      CheckRange(e.oomScoreAdjust, -1000, 1000, OomScoreAdjustError))
  }

  /** The loops over `Environment`, `PassEnvironment` and `UnsetEnvironment`. */
  function CheckEnvironment(e: Exec): (r: Result<(), string>)
    ensures r.Ok? <==>
      AllPresentOk(e.environment, IsEnvironmentAssignment)
      && AllPresentOk(e.passEnvironment, HasNoEquals)
      && AllPresentOk(e.unsetEnvironment, HasNoEquals)
  {
    CheckEachPresentFirstViolation(e.environment, IsEnvironmentAssignment, EnvironmentError);
    CheckEachPresentFirstViolation(e.passEnvironment, HasNoEquals, PassEnvironmentError);
    CheckEachPresentFirstViolation(e.unsetEnvironment, HasNoEquals, UnsetEnvironmentError);
    AndThen(CheckEachPresent(e.environment, IsEnvironmentAssignment, EnvironmentError),
    AndThen(CheckEachPresent(e.passEnvironment, HasNoEquals, PassEnvironmentError),
      CheckEachPresent(e.unsetEnvironment, HasNoEquals, UnsetEnvironmentError)))
  }

  /** The loops over the bounding set and then the ambient capabilities. */
  function CheckCapabilities(e: Exec): (r: Result<(), string>)
    ensures r.Ok? <==>
      AllPresentOk(e.capabilityBoundingSet, HasCapPrefix)
      && AllPresentOk(e.ambientCapabilities, HasCapPrefix)
  {
    CheckEachPresentFirstViolation(e.capabilityBoundingSet, HasCapPrefix, CapabilityError);
    CheckEachPresentFirstViolation(e.ambientCapabilities, HasCapPrefix, CapabilityError);
    AndThen(CheckEachPresent(e.capabilityBoundingSet, HasCapPrefix, CapabilityError),
      CheckEachPresent(e.ambientCapabilities, HasCapPrefix, CapabilityError))
  }

  /** The loops rejecting empty supplementary group names and root image options. */
  function CheckNames(e: Exec): (r: Result<(), string>)
    ensures r.Ok? <==>
      AllPresentOk(e.supplementaryGroups, IsNonEmpty)
      && AllPresentOk(e.rootImageOptions, IsNonEmpty)
  {
    CheckEachPresentFirstViolation(e.supplementaryGroups, IsNonEmpty, SupplementaryGroupError);
    CheckEachPresentFirstViolation(e.rootImageOptions, IsNonEmpty, RootImageOptionError);
    AndThen(CheckEachPresent(e.supplementaryGroups, IsNonEmpty, SupplementaryGroupError),
      CheckEachPresent(e.rootImageOptions, IsNonEmpty, RootImageOptionError))
  }

  /**
   * `Exec::validate`: the checks in source order (nice, OOM score, environment,
   * pass and unset environment, bounding and ambient capabilities,
   * supplementary groups, root image options), the first failure returned.
   * The source runs them as one sequence of early returns; grouping them in
   * four runs does not change the outcome. It accepts exactly the records
   * that pass every check.
   */
  function Validate(e: Exec): (r: Result<(), string>)
    ensures r.Ok? <==>
      InRange(e.nice, -20, 19)
      && InRange(e.oomScoreAdjust, -1000, 1000)
      && AllPresentOk(e.environment, IsEnvironmentAssignment)
      && AllPresentOk(e.passEnvironment, HasNoEquals)
      && AllPresentOk(e.unsetEnvironment, HasNoEquals)
      && AllPresentOk(e.capabilityBoundingSet, HasCapPrefix)
      && AllPresentOk(e.ambientCapabilities, HasCapPrefix)
      && AllPresentOk(e.supplementaryGroups, IsNonEmpty)
      && AllPresentOk(e.rootImageOptions, IsNonEmpty)
  {
    AndThen(CheckLevels(e), AndThen(CheckEnvironment(e), AndThen(CheckCapabilities(e), CheckNames(e))))
  }

  /** Reference definition: the complaint a range check makes, if any. */
  function RangeViolations(o: Option<i32>, lo: int, hi: int, msg: int -> string): seq<string> {
    if o.Some? && !(lo <= o.value <= hi) then [msg(o.value)] else []
  }

  function LevelViolations(e: Exec): seq<string> {
    RangeViolations(e.nice, -20, 19, NiceError)
    + RangeViolations(e.oomScoreAdjust, -1000, 1000, OomScoreAdjustError)
  }

  function EnvironmentViolations(e: Exec): seq<string> {
    PresentViolations(e.environment, IsEnvironmentAssignment, EnvironmentError)
    + PresentViolations(e.passEnvironment, HasNoEquals, PassEnvironmentError)
    + PresentViolations(e.unsetEnvironment, HasNoEquals, UnsetEnvironmentError)
  }

  function CapabilityViolations(e: Exec): seq<string> {
    PresentViolations(e.capabilityBoundingSet, HasCapPrefix, CapabilityError)
    + PresentViolations(e.ambientCapabilities, HasCapPrefix, CapabilityError)
  }

  function NameViolations(e: Exec): seq<string> {
    PresentViolations(e.supplementaryGroups, IsNonEmpty, SupplementaryGroupError)
    + PresentViolations(e.rootImageOptions, IsNonEmpty, RootImageOptionError)
  }

  /** Every complaint about a record, in the order the checks run. */
  function ExecViolations(e: Exec): seq<string> {
    LevelViolations(e) + EnvironmentViolations(e) + CapabilityViolations(e) + NameViolations(e)
  }

  lemma CheckLevelsFirstViolation(e: Exec)
    ensures CheckLevels(e) == Verdict(LevelViolations(e))
  {
    var n := RangeViolations(e.nice, -20, 19, NiceError);
    var o := RangeViolations(e.oomScoreAdjust, -1000, 1000, OomScoreAdjustError);
    assert CheckRange(e.nice, -20, 19, NiceError) == Verdict(n);
    assert CheckRange(e.oomScoreAdjust, -1000, 1000, OomScoreAdjustError) == Verdict(o);
    VerdictAppend(n, o);
  }

  lemma CheckEnvironmentFirstViolation(e: Exec)
    ensures CheckEnvironment(e) == Verdict(EnvironmentViolations(e))
  {
    var v := PresentViolations(e.environment, IsEnvironmentAssignment, EnvironmentError);
    var p := PresentViolations(e.passEnvironment, HasNoEquals, PassEnvironmentError);
    var u := PresentViolations(e.unsetEnvironment, HasNoEquals, UnsetEnvironmentError);
    CheckEachPresentFirstViolation(e.environment, IsEnvironmentAssignment, EnvironmentError);
    CheckEachPresentFirstViolation(e.passEnvironment, HasNoEquals, PassEnvironmentError);
    CheckEachPresentFirstViolation(e.unsetEnvironment, HasNoEquals, UnsetEnvironmentError);
    VerdictAppend(p, u);
    VerdictAppend(v, p + u);
    AppendAssoc(v, p, u);
  }

  lemma CheckCapabilitiesFirstViolation(e: Exec)
    ensures CheckCapabilities(e) == Verdict(CapabilityViolations(e))
  {
    CheckEachPresentFirstViolation(e.capabilityBoundingSet, HasCapPrefix, CapabilityError);
    CheckEachPresentFirstViolation(e.ambientCapabilities, HasCapPrefix, CapabilityError);
    VerdictAppend(PresentViolations(e.capabilityBoundingSet, HasCapPrefix, CapabilityError),
      PresentViolations(e.ambientCapabilities, HasCapPrefix, CapabilityError));
  }

  lemma CheckNamesFirstViolation(e: Exec)
    ensures CheckNames(e) == Verdict(NameViolations(e))
  {
    CheckEachPresentFirstViolation(e.supplementaryGroups, IsNonEmpty, SupplementaryGroupError);
    CheckEachPresentFirstViolation(e.rootImageOptions, IsNonEmpty, RootImageOptionError);
    VerdictAppend(PresentViolations(e.supplementaryGroups, IsNonEmpty, SupplementaryGroupError),
      PresentViolations(e.rootImageOptions, IsNonEmpty, RootImageOptionError));
  }

  /** `validate` reports the first complaint of the full list, or none. */
  lemma ValidateReportsFirstViolation(e: Exec)
    ensures Validate(e) == Verdict(ExecViolations(e))
  {
    var l, v, c, n := LevelViolations(e), EnvironmentViolations(e), CapabilityViolations(e), NameViolations(e);
    CheckLevelsFirstViolation(e);
    CheckEnvironmentFirstViolation(e);
    CheckCapabilitiesFirstViolation(e);
    CheckNamesFirstViolation(e);
    VerdictAppend(c, n);
    VerdictAppend(v, c + n);
    VerdictAppend(l, v + (c + n));
    AppendAssoc(l, v, c);
    AppendAssoc(l + v, c, n);
    AppendAssoc(l, v, c + n);
  }

  /**
   * Reference characterisation of the environment check: an entry passes iff
   * it has an `=` and does not start with one, i.e. it is `KEY=VALUE` with a
   * non-empty `KEY` (the value may be empty).
   */
  lemma EnvironmentAssignmentShape(entry: string)
    ensures IsEnvironmentAssignment(entry) <==> '=' in entry && entry[0] != '='
  {
    if '=' in entry {
      var parts := SplitOnce(entry, '=');
      assert entry == parts[0] + ['='] + parts[1];
      if |parts[0]| > 0 {
        assert entry[0] == parts[0][0];
      } else {
        assert entry[0] == '=';
      }
    }
  }

  /** The cases the environment check is meant to separate. */
  lemma EnvironmentExamples()
    ensures IsEnvironmentAssignment("FOO=bar")
    ensures IsEnvironmentAssignment("FOO=")
    ensures !IsEnvironmentAssignment("FOO")
    ensures !IsEnvironmentAssignment("=bar")
  {
    EnvironmentAssignmentShape("FOO=bar");
    EnvironmentAssignmentShape("FOO=");
    EnvironmentAssignmentShape("FOO");
    EnvironmentAssignmentShape("=bar");
    assert "FOO=bar"[3] == '=';
    assert "FOO="[3] == '=';
    assert "=bar"[0] == '=';
  }

  /** The nice range is closed at both ends: -20 and 19 pass, -21 and 20 do not. */
  lemma NiceBounds()
    ensures Validate(DefaultExec.(nice := Some(-20))).Ok?
    ensures Validate(DefaultExec.(nice := Some(19))).Ok?
    ensures Validate(DefaultExec.(nice := Some(-21))) == Err(NiceError(-21))
    ensures Validate(DefaultExec.(nice := Some(20))) == Err(NiceError(20))
  {
  }

  // ---------------------------------------------------------------------------
  // Builder setters: each sets its own field to `Some(value)` and nothing else
  // ---------------------------------------------------------------------------

  function SetWorkingDirectory(e: Exec, value: Path): (r: Exec)
    ensures r.workingDirectory == Some(value)
    ensures r.(workingDirectory := e.workingDirectory) == e
  {
    e.(workingDirectory := Some(value))
  }

  function SetUser(e: Exec, value: string): (r: Exec)
    ensures r.user == Some(value)
    ensures r.(user := e.user) == e
  {
    e.(user := Some(value))
  }

  function SetGroup(e: Exec, value: string): (r: Exec)
    ensures r.group == Some(value)
    ensures r.(group := e.group) == e
  {
    e.(group := Some(value))
  }

  function SetEnvironment(e: Exec, value: seq<string>): (r: Exec)
    ensures r.environment == Some(value)
    ensures r.(environment := e.environment) == e
  {
    e.(environment := Some(value))
  }

  function SetNoNewPrivileges(e: Exec, value: bool): (r: Exec)
    ensures r.noNewPrivileges == Some(value)
    ensures r.(noNewPrivileges := e.noNewPrivileges) == e
  {
    e.(noNewPrivileges := Some(value))
  }

  function SetPrivateTmp(e: Exec, value: bool): (r: Exec)
    ensures r.privateTmp == Some(value)
    ensures r.(privateTmp := e.privateTmp) == e
  {
    e.(privateTmp := Some(value))
  }
}
