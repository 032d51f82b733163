/**
 * The [Service] section of `src/systemd/service.rs`: the all-optional `Service`
 * record and its rendering. Type, Restart and the other settings with a fixed
 * vocabulary in systemd are plain strings here, written as given.
 */
module ServiceSection {
  import opened Wrappers
  import opened Primitives
  import opened Text
  import opened Macros
  import opened Checks

  /** Every option of the [Service] section; `None` means the line is omitted. */
  datatype Service = Service(
    serviceType: Option<string>,
    exitType: Option<string>,
    remainAfterExit: Option<bool>,
    guessMainPid: Option<bool>,
    pidFile: Option<Path>,
    busName: Option<string>,
    execStart: Option<seq<string>>,
    execStartPre: Option<seq<string>>,
    execStartPost: Option<seq<string>>,
    execCondition: Option<seq<string>>,
    execReload: Option<seq<string>>,
    execStop: Option<seq<string>>,
    execStopPost: Option<seq<string>>,
    restartSec: Option<u64>,
    restartSteps: Option<u32>,
    restartMaxDelaySec: Option<string>,
    timeoutStartSec: Option<string>,
    timeoutStopSec: Option<string>,
    timeoutAbortSec: Option<string>,
    timeoutSec: Option<string>,
    timeoutStartFailureMode: Option<string>,
    timeoutStopFailureMode: Option<string>,
    runtimeMaxSec: Option<string>,
    runtimeRandomizedExtraSec: Option<string>,
    watchdogSec: Option<string>,
    restart: Option<string>,
    restartMode: Option<string>,
    successExitStatus: Option<seq<string>>,
    restartPreventExitStatus: Option<seq<string>>,
    restartForceExitStatus: Option<seq<string>>,
    rootDirectoryStartOnly: Option<bool>,
    nonBlocking: Option<bool>,
    notifyAccess: Option<string>,
    sockets: Option<seq<string>>,
    fileDescriptorStoreMax: Option<u32>,
    fileDescriptorStorePreserve: Option<string>,
    usbFunctionDescriptors: Option<Path>,
    usbFunctionStrings: Option<Path>,
    oomPolicy: Option<string>,
    openFile: Option<seq<string>>,
    reloadSignal: Option<string>
  )

  /** `Service::default()`: every field absent. */
  const DefaultService: Service := Service(Option.None, Option.None, Option.None, Option.None, Option.None, Option.None, Option.None, Option.None, Option.None, Option.None, Option.None, Option.None, Option.None, Option.None, Option.None, Option.None, Option.None, Option.None, Option.None, Option.None, Option.None, Option.None, Option.None, Option.None, Option.None, Option.None, Option.None, Option.None, Option.None, Option.None, Option.None, Option.None, Option.None, Option.None, Option.None, Option.None, Option.None, Option.None, Option.None, Option.None, Option.None)

  // ---------------------------------------------------------------------------
  // Rendering
  // ---------------------------------------------------------------------------

  /** The formatter invocations of `Display for Service`, in source order. */
  function ServiceFields(s: Service): seq<Field> {
    BehaviorFields(s) + CommandFields(s) + RestartFields(s) + TimeoutFields(s)
    + RuntimeFields(s) + EnvironmentFields(s) + DescriptorFields(s) + ResourceFields(s)
    + SignalFields(s)
  }

  /** Service type and behavior. */
  function BehaviorFields(s: Service): seq<Field> {
    [
      Scalar("Type", s.serviceType),
      Scalar("ExitType", s.exitType),
      Flag("RemainAfterExit", s.remainAfterExit),
      Flag("GuessMainPID", s.guessMainPid),
      Scalar("PIDFile", s.pidFile),
      Scalar("BusName", s.busName)
    ]
  }

  /** Execution commands, each list space-joined on a single line by `write_vec!`. */
  function CommandFields(s: Service): seq<Field> {
    [
      Joined("ExecCondition", s.execCondition),
      Joined("ExecStartPre", s.execStartPre),
      Joined("ExecStart", s.execStart),
      Joined("ExecStartPost", s.execStartPost),
      Joined("ExecReload", s.execReload),
      Joined("ExecStop", s.execStop),
      Joined("ExecStopPost", s.execStopPost)
    ]
  }

  /** Restart configuration. */
  function RestartFields(s: Service): seq<Field> {
    [
      Scalar("Restart", s.restart),
      Scalar("RestartMode", s.restartMode),
      Scalar("RestartSec", Number(s.restartSec)),
      Scalar("RestartSteps", Number(s.restartSteps)),
      Scalar("RestartMaxDelaySec", s.restartMaxDelaySec),
      Joined("SuccessExitStatus", s.successExitStatus),
      Joined("RestartPreventExitStatus", s.restartPreventExitStatus),
      Joined("RestartForceExitStatus", s.restartForceExitStatus)
    ]
  }

  /** Timeouts. */
  function TimeoutFields(s: Service): seq<Field> {
    [
      Scalar("TimeoutStartSec", s.timeoutStartSec),
      Scalar("TimeoutStopSec", s.timeoutStopSec),
      Scalar("TimeoutAbortSec", s.timeoutAbortSec),
      Scalar("TimeoutSec", s.timeoutSec),
      Scalar("TimeoutStartFailureMode", s.timeoutStartFailureMode),
      Scalar("TimeoutStopFailureMode", s.timeoutStopFailureMode)
    ]
  }

  /** Runtime limits. */
  function RuntimeFields(s: Service): seq<Field> {
    [
      Scalar("RuntimeMaxSec", s.runtimeMaxSec),
      Scalar("RuntimeRandomizedExtraSec", s.runtimeRandomizedExtraSec),
      Scalar("WatchdogSec", s.watchdogSec)
    ]
  }

  /** Execution environment. */
  function EnvironmentFields(s: Service): seq<Field> {
    [
      Flag("RootDirectoryStartOnly", s.rootDirectoryStartOnly),
      Flag("NonBlocking", s.nonBlocking),
      Scalar("NotifyAccess", s.notifyAccess)
    ]
  }

  /** Socket and file descriptor management. */
  function DescriptorFields(s: Service): seq<Field> {
    [
      Joined("Sockets", s.sockets),
      Scalar("FileDescriptorStoreMax", Number(s.fileDescriptorStoreMax)),
      Scalar("FileDescriptorStorePreserve", s.fileDescriptorStorePreserve),
      Scalar("USBFunctionDescriptors", s.usbFunctionDescriptors),
      Scalar("USBFunctionStrings", s.usbFunctionStrings)
    ]
  }

  /** Resource management. */
  function ResourceFields(s: Service): seq<Field> {
    [
      Scalar("OOMPolicy", s.oomPolicy),
      Joined("OpenFile", s.openFile)
    ]
  }

  /** Signals. */
  function SignalFields(s: Service): seq<Field> {
    [
      Scalar("ReloadSignal", s.reloadSignal)
    ]
  }

  /** The option lines written below the `[Service]` header. */
  function ServiceLines(s: Service): seq<string> {
    FieldsLines(ServiceFields(s))
  }

  /** `Display for Service`: the header line, then the option lines. */
  function ServiceText(s: Service): string {
    SectionText("[Service]", ServiceFields(s))
  }

  method Fmt(s: Service, buf: Formatter)
    modifies buf
    ensures buf.text == old(buf.text) + ServiceText(s)
  {
    buf.WriteSection("[Service]", ServiceFields(s));
  }

  // ---------------------------------------------------------------------------
  // What the rendering promises
  // ---------------------------------------------------------------------------

  /** The rendering is the header line followed by the option lines. */
  lemma ServiceTextShape(s: Service)
    ensures StartsWith(ServiceText(s), "[Service]\n")
    ensures ServiceText(s) == "[Service]\n" + JoinLines(ServiceLines(s))
  {
    SectionTextShape("[Service]", ServiceFields(s));
  }

  /** The option lines come out group by group, in the order of the source's sections. */
  lemma ServiceLinesByGroup(s: Service)
    ensures ServiceLines(s) ==
      FieldsLines(BehaviorFields(s)) + FieldsLines(CommandFields(s)) + FieldsLines(RestartFields(s))
      + FieldsLines(TimeoutFields(s)) + FieldsLines(RuntimeFields(s)) + FieldsLines(EnvironmentFields(s))
      + FieldsLines(DescriptorFields(s)) + FieldsLines(ResourceFields(s)) + FieldsLines(SignalFields(s))
  {
    FieldsLinesAppend(BehaviorFields(s), CommandFields(s));
    FieldsLinesAppend(BehaviorFields(s) + CommandFields(s), RestartFields(s));
    FieldsLinesAppend(BehaviorFields(s) + CommandFields(s) + RestartFields(s), TimeoutFields(s));
    FieldsLinesAppend(BehaviorFields(s) + CommandFields(s) + RestartFields(s) + TimeoutFields(s), RuntimeFields(s));
    FieldsLinesAppend(BehaviorFields(s) + CommandFields(s) + RestartFields(s) + TimeoutFields(s) + RuntimeFields(s), EnvironmentFields(s));
    FieldsLinesAppend(BehaviorFields(s) + CommandFields(s) + RestartFields(s) + TimeoutFields(s) + RuntimeFields(s) + EnvironmentFields(s), DescriptorFields(s));
    FieldsLinesAppend(BehaviorFields(s) + CommandFields(s) + RestartFields(s) + TimeoutFields(s) + RuntimeFields(s) + EnvironmentFields(s) + DescriptorFields(s), ResourceFields(s));
    FieldsLinesAppend(BehaviorFields(s) + CommandFields(s) + RestartFields(s) + TimeoutFields(s) + RuntimeFields(s) + EnvironmentFields(s) + DescriptorFields(s) + ResourceFields(s), SignalFields(s));
  }

  lemma DefaultBehaviorFieldsSilent()
    ensures FieldsLines(BehaviorFields(DefaultService)) == []
  {
    UnsetFieldsWriteNothing(BehaviorFields(DefaultService));
  }

  lemma DefaultCommandFieldsSilent()
    ensures FieldsLines(CommandFields(DefaultService)) == []
  {
    UnsetFieldsWriteNothing(CommandFields(DefaultService));
  }

  lemma DefaultRestartFieldsSilent()
    ensures FieldsLines(RestartFields(DefaultService)) == []
  {
    UnsetFieldsWriteNothing(RestartFields(DefaultService));
  }

  lemma DefaultTimeoutFieldsSilent()
    ensures FieldsLines(TimeoutFields(DefaultService)) == []
  {
    UnsetFieldsWriteNothing(TimeoutFields(DefaultService));
  }

  lemma DefaultRuntimeFieldsSilent()
    ensures FieldsLines(RuntimeFields(DefaultService)) == []
  {
    UnsetFieldsWriteNothing(RuntimeFields(DefaultService));
  }

  lemma DefaultEnvironmentFieldsSilent()
    ensures FieldsLines(EnvironmentFields(DefaultService)) == []
  {
    UnsetFieldsWriteNothing(EnvironmentFields(DefaultService));
  }

  lemma DefaultDescriptorFieldsSilent()
    ensures FieldsLines(DescriptorFields(DefaultService)) == []
  {
    UnsetFieldsWriteNothing(DescriptorFields(DefaultService));
  }

  lemma DefaultResourceFieldsSilent()
    ensures FieldsLines(ResourceFields(DefaultService)) == []
  {
    UnsetFieldsWriteNothing(ResourceFields(DefaultService));
  }

  lemma DefaultSignalFieldsSilent()
    ensures FieldsLines(SignalFields(DefaultService)) == []
  {
    UnsetFieldsWriteNothing(SignalFields(DefaultService));
  }

  /** A default `Service` renders its header line alone. */
  lemma DefaultServiceText()
    ensures ServiceText(DefaultService) == "[Service]\n"
  {
    DefaultBehaviorFieldsSilent();
    DefaultCommandFieldsSilent();
    DefaultRestartFieldsSilent();
    DefaultTimeoutFieldsSilent();
    DefaultRuntimeFieldsSilent();
    DefaultEnvironmentFieldsSilent();
    DefaultDescriptorFieldsSilent();
    DefaultResourceFieldsSilent();
    DefaultSignalFieldsSilent();
    ServiceLinesByGroup(DefaultService);
    ServiceTextShape(DefaultService);
  }

  /**
   * The command lists come out in the order ExecCondition, ExecStartPre,
   * ExecStart, ExecStartPost, ExecReload, ExecStop, ExecStopPost, each one
   * `write_vec!` line (or none), as `ServiceLinesByGroup` places the group.
   */
  lemma CommandOrder(s: Service)
    ensures FieldsLines(CommandFields(s)) ==
      FieldLines(Joined("ExecCondition", s.execCondition))
      + FieldLines(Joined("ExecStartPre", s.execStartPre))
      + FieldLines(Joined("ExecStart", s.execStart))
      + FieldLines(Joined("ExecStartPost", s.execStartPost))
      + FieldLines(Joined("ExecReload", s.execReload))
      + FieldLines(Joined("ExecStop", s.execStop))
      + FieldLines(Joined("ExecStopPost", s.execStopPost))
  {
    var fs := CommandFields(s);
    var a, b, c, d := FieldLines(fs[0]), FieldLines(fs[1]), FieldLines(fs[2]), FieldLines(fs[3]);
    var e, f, g := FieldLines(fs[4]), FieldLines(fs[5]), FieldLines(fs[6]);
    FieldsLinesFirstThree(fs);
    FieldsLinesStep(fs, 3);
    FieldsLinesStep(fs, 4);
    FieldsLinesStep(fs, 5);
    FieldsLinesStep(fs, 6);
    assert fs[..7] == fs;
  }

  /**
   * `ExecStart` is written with the space-joining formatter: however many
   * commands the list holds they share one `ExecStart=` line, which splits
   * back into the list when no element contains a space, and an empty list
   * writes no line at all.
   */
  lemma ExecStartSingleLine(s: Service)
    ensures s.execStart.Some? && |s.execStart.value| > 0 ==>
      FieldLines(CommandFields(s)[2]) == ["ExecStart" + "=" + Join(s.execStart.value, " ")]
    ensures s.execStart.Some? && |s.execStart.value| > 0 && (forall i :: 0 <= i < |s.execStart.value| ==> ' ' !in s.execStart.value[i]) ==>
      Split(FieldLines(CommandFields(s)[2])[0][|"ExecStart"| + 1..], ' ') == s.execStart.value
    ensures s.execStart == Some([]) ==> FieldLines(CommandFields(s)[2]) == []
  {
    if s.execStart.Some? && |s.execStart.value| > 0 && (forall i :: 0 <= i < |s.execStart.value| ==> ' ' !in s.execStart.value[i]) {
      JoinedLineRoundTrip("ExecStart", s.execStart.value);
    }
  }

  /**
   * Type, ExitType, Restart, RestartMode, NotifyAccess and OOMPolicy are free
   * strings: whatever the value, it is written after `Key=` unchanged.
   */
  lemma StringSettingsVerbatim(s: Service)
    ensures s.serviceType.Some? ==> "Type" + "=" + s.serviceType.value in FieldsLines(BehaviorFields(s))
    ensures s.exitType.Some? ==> "ExitType" + "=" + s.exitType.value in FieldsLines(BehaviorFields(s))
    ensures s.restart.Some? ==> "Restart" + "=" + s.restart.value in FieldsLines(RestartFields(s))
    ensures s.restartMode.Some? ==> "RestartMode" + "=" + s.restartMode.value in FieldsLines(RestartFields(s))
    ensures s.notifyAccess.Some? ==> "NotifyAccess" + "=" + s.notifyAccess.value in FieldsLines(EnvironmentFields(s))
    ensures s.oomPolicy.Some? ==> "OOMPolicy" + "=" + s.oomPolicy.value in FieldsLines(ResourceFields(s))
  {
    if s.serviceType.Some? {
      FieldLinesWritten(BehaviorFields(s), 0);
      assert "Type" + "=" + s.serviceType.value in FieldLines(BehaviorFields(s)[0]);
    }
    if s.exitType.Some? {
      FieldLinesWritten(BehaviorFields(s), 1);
      assert "ExitType" + "=" + s.exitType.value in FieldLines(BehaviorFields(s)[1]);
    }
    if s.restart.Some? {
      FieldLinesWritten(RestartFields(s), 0);
      assert "Restart" + "=" + s.restart.value in FieldLines(RestartFields(s)[0]);
    }
    if s.restartMode.Some? {
      FieldLinesWritten(RestartFields(s), 1);
      assert "RestartMode" + "=" + s.restartMode.value in FieldLines(RestartFields(s)[1]);
    }
    if s.notifyAccess.Some? {
      FieldLinesWritten(EnvironmentFields(s), 2);
      assert "NotifyAccess" + "=" + s.notifyAccess.value in FieldLines(EnvironmentFields(s)[2]);
    }
    if s.oomPolicy.Some? {
      FieldLinesWritten(ResourceFields(s), 0);
      assert "OOMPolicy" + "=" + s.oomPolicy.value in FieldLines(ResourceFields(s)[0]);
    }
  }

  /**
   * `restart_sec`, `restart_steps` and `file_descriptor_store_max` are
   * written as `Key=<decimal>` among the lines of their group.
   */
  lemma RestartNumbersRenderDecimal(s: Service)
    ensures s.restartSec.Some? ==> "RestartSec" + "=" + Decimal(s.restartSec.value) in FieldsLines(RestartFields(s))
    ensures s.restartSteps.Some? ==> "RestartSteps" + "=" + Decimal(s.restartSteps.value) in FieldsLines(RestartFields(s))
  {
    if s.restartSec.Some? {
      FieldLinesWritten(RestartFields(s), 2);
      assert "RestartSec" + "=" + Decimal(s.restartSec.value) in FieldLines(RestartFields(s)[2]);
    }
    if s.restartSteps.Some? {
      FieldLinesWritten(RestartFields(s), 3);
      assert "RestartSteps" + "=" + Decimal(s.restartSteps.value) in FieldLines(RestartFields(s)[3]);
    }
  }

  lemma DescriptorNumbersRenderDecimal(s: Service)
    ensures s.fileDescriptorStoreMax.Some? ==> "FileDescriptorStoreMax" + "=" + Decimal(s.fileDescriptorStoreMax.value) in FieldsLines(DescriptorFields(s))
  {
    if s.fileDescriptorStoreMax.Some? {
      FieldLinesWritten(DescriptorFields(s), 1);
      assert "FileDescriptorStoreMax" + "=" + Decimal(s.fileDescriptorStoreMax.value) in FieldLines(DescriptorFields(s)[1]);
    }
  }

  /**
   * The restart group opens with the `Restart` line, then `RestartMode`, then
   * `RestartSec`, each present only when its field is set.
   */
  lemma RestartOrder(s: Service)
    ensures FieldsLines(RestartFields(s)) ==
      FieldLines(Scalar("Restart", s.restart))
      + FieldLines(Scalar("RestartMode", s.restartMode))
      + FieldLines(Scalar("RestartSec", Number(s.restartSec)))
      + FieldsLines(RestartFields(s)[3..])
  {
    var fs := RestartFields(s);
    FieldsLinesFirstThree(fs);
    assert fs == fs[..3] + fs[3..];
    FieldsLinesAppend(fs[..3], fs[3..]);
  }

  /** `ReloadSignal` is written last of all, when it is set. */
  lemma ReloadSignalLast(s: Service)
    ensures s.reloadSignal.Some? ==>
      |ServiceLines(s)| > 0 && ServiceLines(s)[|ServiceLines(s)| - 1] == "ReloadSignal" + "=" + s.reloadSignal.value
  {
    var fs := ServiceFields(s);
    assert fs[|fs| - 1] == Scalar("ReloadSignal", s.reloadSignal);
  }

  /**
   * The written text, read line by line, is the header and the option lines,
   * so `ReloadSignal=` is its last line when set, provided no value holds a
   * line break.
   */
  lemma ReloadSignalLastInText(s: Service)
    requires forall p :: 0 <= p < |ServiceLines(s)| ==> SingleLine(ServiceLines(s)[p])
    ensures SplitLines(ServiceText(s)) == ["[Service]"] + ServiceLines(s)
    ensures s.reloadSignal.Some? ==>
      SplitLines(ServiceText(s))[|SplitLines(ServiceText(s))| - 1] == "ReloadSignal" + "=" + s.reloadSignal.value
  {
    var lines := ["[Service]"] + ServiceLines(s);
    forall p | 0 <= p < |lines| ensures SingleLine(lines[p]) {
      if p > 0 {
        assert lines[p] == ServiceLines(s)[p - 1];
      }
    }
    LinesRoundTrip(lines);
    ReloadSignalLast(s);
  }
}
