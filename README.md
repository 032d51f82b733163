# sudoservice systemd core, modelled in Dafny

This project models the systemd back end of `sudoservice`, a Rust library that installs and drives a system service. The model has two parts.

**Unit-file generator** (`src/systemd/`):
- The four line formatters `write_option!`, `write_vec!`, `write_vec_multi!` and `write_bool!` (`macros.dfy`). They are methods of a `Formatter` class whose `text` field is the `fmt::Formatter` buffer they append to.
- The closed vocabularies of `unit.rs` and their `Display` tokens.
- The all-optional records `Unit`, `Exec`, `Service` and `Install` (`unit.dfy`, `exec.dfy`, `service.dfy`, `install.dfy`). Each section's `Display::fmt` is the source's list of formatter invocations, kept in source order as a table of fields with their keys and formatters. `Fmt` writes that table into the buffer.
- `Unit::validate` and `Exec::validate`, both early-return loops (`checks.dfy` holds the loop shape they share).
- The builder setters.
- The `Config` assembler of `src/systemd/mod.rs`.
- The older fixed-template `Config` of `src/systemd.rs` (`legacy.dfy`). Its `fmt` writes block by block into the same buffer class, with a `while` loop over the environment pairs. The template is read back key by key (`ValuesOf`, the values systemd reads for a key) to state what it sets.

**Service controllers** (`systemd.dfy` for `src/systemd/mod.rs`, `legacy.dfy` for `src/systemd.rs`):
- `install`, `uninstall`, `start`, `stop`, `restart` and `status` are methods over a `Host` object (`effects.dfy`). The host's fields are the set of existing paths and the log of attempted steps.
- What the operating system decides is an oracle `World`: the I/O error a step raises, if any, and the `(success, stdout, stderr)` answer of `systemctl` to an argument list.
- A chain of `?` is a plan: a list of steps, each with the error it reports. `Execute` is the plan's specification and `Host.Perform` is the method that runs it.
- Each operation's `ensures` ties its result, its log and its new files to a function of the world. The lemmas then state what the source promises about that function: ordering, early exit, files left behind, the status mapping, and that `Unknown` is never returned.

Where the code and the prose description of the library differ, the model follows the code:
- `Service` keeps Type, ExitType, Restart, RestartMode, NotifyAccess and OOMPolicy as free strings. There is no vocabulary check.
- The Exec* command lists of `Service` use the space-joined formatter, so one `ExecStart=` line holds every command.
- A failed command is reported with `Failed to ...: ` followed by its stderr, even when stderr is empty. No generic message replaces an empty stderr.
- `exec.rs` is not declared as a module of `src/systemd/mod.rs`, and `Service` has no `exec` field. `Exec` is modelled standalone.
- The newer `status` returns a `CommandError` whenever `is-active` exits unsuccessfully, whatever it printed (`Systemd.StatusFailsOnUnsuccessfulExit`). A `systemctl` that reports an inactive unit with a failing exit status therefore never reaches the `inactive` branch of the newer `status`. The older `status` ignores that exit status (`Legacy.StatusOfInactiveExit`).
- The older `uninstall` reports a failure to spawn `disable` as "Failed to stop <unit>: ...".
- The older template writes `RestartSec=120` whatever `restart_sec` holds, and never writes the `description` field.
- The older `ExecStart=` line keeps a trailing space when `args` is `Some([])`.
- Both controllers use the same `Status` type. `src/service.rs` and `src/systemd/mod.rs` declare it identically, and the model declares it once, in `Systemd`.

## Model

| member | source | states |
|---|---|---|
| Macros.Formatter.WriteLine | src/systemd/macros.rs:8 | one `writeln!` of `{}={}` appends `key=value` and a newline to the buffer, nothing else |
| Macros.Formatter.WriteOption | src/systemd/macros.rs:5-11 | `write_option!` appends the single line `key=value` when the field is set and nothing when it is absent |
| Macros.Formatter.WriteVec | src/systemd/macros.rs:15-32 | `write_vec!` appends nothing for an absent field or an empty list, otherwise one line `key=` followed by the elements, in order, separated by single spaces |
| Macros.Formatter.WriteVecMulti | src/systemd/macros.rs:36-44 | `write_vec_multi!` appends one `key=v` line per element, in list order, duplicates kept (loop invariant: the lines of the elements visited so far) |
| Macros.Formatter.WriteBool | src/systemd/macros.rs:48-54 | `write_bool!` appends `key=yes` for true, `key=no` for false and nothing when absent |
| Macros.Formatter.WriteStr | src/systemd/unit.rs:811 | `buf.write_str(s)` appends `s` to the buffer and changes nothing else |
| Macros.Formatter.WriteField | src/systemd/macros.rs:5-54 | one formatter invocation appends exactly the lines `FieldLines` gives for its field, each followed by a newline |
| Macros.FieldLines | src/systemd/macros.rs:5-54 | the lines of one invocation: none for an absent field, `key=value` for `write_option!`, one space-joined line for a non-empty `write_vec!` list, one line per element for `write_vec_multi!`, and `yes`/`no` for `write_bool!`; `FieldLinesAreKeyed` and `FieldLineCount` state its properties |
| Macros.Formatter.WriteFields | src/systemd/unit.rs:812-1040 | a section body, one formatter invocation after another in table order, appends the lines of every field in that order (loop invariant over the table) |
| Macros.Formatter.WriteSection | src/systemd/unit.rs:811-1042 | `buf.write_str("[Name]\n")` followed by the formatter invocations appends exactly the section text |
| Macros.KeyLines | src/systemd/macros.rs:39-41 | the per-element lines: as many as there are elements, line `i` being `key=` followed by element `i` |
| Macros.Number | src/systemd/macros.rs:8 | an unsigned number written with `{}` is present exactly when the field is, and is then its decimal numeral |
| Macros.SignedNumber | src/systemd/exec.rs:226-231 | a signed number written with `{}` is present exactly when the field is, and is then a `-` for negatives followed by the decimal numeral |
| Macros.FieldLinesAreKeyed | src/systemd/macros.rs:5-54 | no formatter escapes or alters a value: each line is `key=` followed verbatim by the scalar, the space-joined list, one element, or `yes`/`no` |
| Macros.FieldLineCount | src/systemd/macros.rs:5-54 | an absent field or an empty `write_vec!` list writes no line, a scalar, flag or non-empty joined list one line, and `write_vec_multi!` one line per element; a field writes something exactly when it emits |
| Macros.JoinedLineRoundTrip | src/systemd/macros.rs:19-28 | the `write_vec!` line of a non-empty list splits at spaces back into the list when no element holds a space |
| Macros.SilentFields | src/systemd/macros.rs:5-54 | a run of formatter invocations writes nothing exactly when none of its fields emits |
| Macros.LinesFollowFieldOrder | src/systemd/unit.rs:813-1040 | the lines come out in table order: each line belongs to one field, and the owning field never goes backwards along the text |
| Macros.SectionTextShape | src/systemd/unit.rs:811 | a section text starts with its header line and is the header line followed by the option lines, each ending in a newline |
| Macros.SilentSection | src/systemd/service.rs:182-261 | a section none of whose fields is set renders as its header line alone |
| Macros.UnsetFieldsWriteNothing | src/systemd/unit.rs:813-1040 | unset fields write no line at all |
| Macros.OnlyFieldWrites | src/systemd/exec.rs:179-190 | when every field of a table but one is unset, the table writes exactly the lines of that one field |
| Text.Trim | src/systemd/mod.rs:212 | `str::trim`: the result is a slice of the input with only whitespace removed before and after it, and it neither starts nor ends with whitespace |
| Text.TrimPadded | src/systemd/mod.rs:212 | a token without whitespace at its ends, padded with whitespace (such as the trailing newline `systemctl` prints), trims back to the token |
| Text.SplitOnce | src/systemd/exec.rs:294 | `splitn(2, c)`: the whole text when `c` does not occur, otherwise the text before the first `c` and the text after it, which put back together give the input |
| Text.SplitJoin | src/systemd/macros.rs:23-27 | joining at least one element with a separator that occurs in no element can be undone by splitting: order, count and duplicates survive |
| Text.LinesRoundTrip | src/systemd/macros.rs:8 | lines written with `writeln!` read back as the same lines, provided none holds a newline |
| Text.JoinSingleLine | src/systemd.rs:40-54 | joining single-line strings with a single-line separator gives a single line, so the older `ExecStart=` line stays one line |
| Text.JoinLinesShape | src/systemd/macros.rs:8 | text written line by line is empty or ends with a newline, and has exactly one newline per line |
| Text.DecimalRoundTrip | src/systemd/unit.rs:864-891 | a numeral written with `{}` is non-empty, all digits, has no leading zero unless it is `0`, and reads back as the number |
| Text.DecimalInjective | src/systemd/unit.rs:864-891 | different numbers never share a numeral |
| Wrappers.LiftSeq | src/systemd/macros.rs:23-26 | `values.iter().map(ToString::to_string)` keeps presence, length and order, rendering each element |
| Checks.CheckEachFirstViolation | src/systemd/unit.rs:1050-1064 | a `for` loop with an early `return Err` reports exactly the first violation in list order, and none exactly when every element passes |
| Checks.CheckEachReportsFirst | src/systemd/unit.rs:1050-1064 | the first failing element is the one whose message is returned |
| Checks.AndThen | src/systemd/unit.rs:1064-1071 | the next loop runs only when the previous one passed: the result is Ok exactly when both are, and the first error otherwise |
| Checks.VerdictAppend | src/systemd/unit.rs:1050-1090 | running two such loops one after the other reports the first violation of the two lists put together |
| UnitSection.CollectModeToken | src/systemd/unit.rs:13-20 | `Display for CollectMode`: the token of each variant; `CollectModeTokenRoundTrip` states that `ParseCollectMode` reads it back |
| UnitSection.CollectModeTokenRoundTrip | src/systemd/unit.rs:13-20 | `Display for CollectMode` writes a lower-case, hyphenated token that `ParseCollectMode` reads back as the same variant |
| UnitSection.CollectModeTokensDistinct | src/systemd/unit.rs:13-20 | distinct `CollectMode` variants are written as distinct tokens |
| UnitSection.JobModeToken | src/systemd/unit.rs:41-53 | `Display for JobMode`: the token of each variant; `JobModeTokenRoundTrip` states that `ParseJobMode` reads it back |
| UnitSection.JobModeTokenRoundTrip | src/systemd/unit.rs:41-53 | `Display for JobMode` writes a lower-case, hyphenated token that `ParseJobMode` reads back as the same variant |
| UnitSection.JobModeTokensDistinct | src/systemd/unit.rs:41-53 | distinct `JobMode` variants are written as distinct tokens |
| UnitSection.ActionToken | src/systemd/unit.rs:92-113 | `Display for Action`: the token of each variant; `ActionTokenRoundTrip` states that `ParseAction` reads it back |
| UnitSection.ActionTokenRoundTrip | src/systemd/unit.rs:92-113 | `Display for Action` writes a lower-case, hyphenated token that `ParseAction` reads back as the same variant |
| UnitSection.ActionTokensDistinct | src/systemd/unit.rs:92-113 | distinct `Action` variants are written as distinct tokens |
| UnitSection.SecurityTechToken | src/systemd/unit.rs:140-155 | `Display for SecurityTech`: the token of each variant; `SecurityTechTokenRoundTrip` states that `ParseSecurityTech` reads it back |
| UnitSection.SecurityTechTokenRoundTrip | src/systemd/unit.rs:140-155 | `Display for SecurityTech` writes a lower-case, hyphenated token that `ParseSecurityTech` reads back as the same variant |
| UnitSection.SecurityTechTokensDistinct | src/systemd/unit.rs:140-155 | distinct `SecurityTech` variants are written as distinct tokens |
| UnitSection.ArchitectureToken | src/systemd/unit.rs:222-257 | `Display for Architecture`: the token of each variant; `ArchitectureTokenRoundTrip` states that `ParseArchitecture` reads it back |
| UnitSection.ArchitectureTokenRoundTrip | src/systemd/unit.rs:222-257 | `Display for Architecture` writes a lower-case, hyphenated token that `ParseArchitecture` reads back as the same variant |
| UnitSection.ArchitectureTokensDistinct | src/systemd/unit.rs:222-257 | distinct `Architecture` variants are written as distinct tokens |
| UnitSection.VirtualizationToken | src/systemd/unit.rs:322-356 | `Display for Virtualization`: the token of each variant; `VirtualizationTokenRoundTrip` states that `ParseVirtualization` reads it back |
| UnitSection.VirtualizationTokenRoundTrip | src/systemd/unit.rs:322-356 | `Display for Virtualization` writes a lower-case, hyphenated token that `ParseVirtualization` reads back as the same variant |
| UnitSection.VirtualizationTokensDistinct | src/systemd/unit.rs:322-356 | distinct `Virtualization` variants are written as distinct tokens |
| UnitSection.Fmt | src/systemd/unit.rs:809-1044 | `Display for Unit` appends `UnitText(u)`: the `[Unit]` header and then every formatter invocation of the source, in source order, each with its key and formatter |
| UnitSection.UnitTextShape | src/systemd/unit.rs:811 | the rendering starts with `[Unit]\n` and is that header followed by the option lines |
| UnitSection.UnitText | src/systemd/unit.rs:809-1044 | the `[Unit]` header followed by the option lines, each ended by a newline; `UnitTextShape` states its shape |
| UnitSection.UnitLines | src/systemd/unit.rs:812-1040 | the option lines of the formatter invocations in source order; `LinesFollowFieldOrder` and the group lemmas state their order |
| UnitSection.UnitLinesByGroup | src/systemd/unit.rs:812-1040 | the option lines come group by group: Description and Documentation, dependencies, ordering, lifecycle, namespace, job modes, flags, actions, timeouts, rate limits, SourcePath, Condition*, Assert* |
| UnitSection.ConditionsThenAsserts | src/systemd/unit.rs:899-1040 | below the other settings come all Condition* lines and then all Assert* lines, each line of those groups starting with `Condition` or `Assert` |
| UnitSection.ConditionKeys | src/systemd/unit.rs:901-981 | every key of the Condition group starts with `Condition` |
| UnitSection.AssertKeys | src/systemd/unit.rs:984-1040 | every key of the Assert group starts with `Assert` |
| UnitSection.ActionNumbersRenderDecimal | src/systemd/unit.rs:864-867 | `FailureActionExitStatus` and `SuccessActionExitStatus`, when set, are written as `Key=<decimal>` among the action lines |
| UnitSection.TimeoutNumbersRenderDecimal | src/systemd/unit.rs:872-879 | `JobTimeoutSec` and `JobRunningTimeoutSec`, when set, are written as `Key=<decimal>` among the timeout lines |
| UnitSection.RateLimitNumbersRenderDecimal | src/systemd/unit.rs:886-891 | `StartLimitIntervalSec` and `StartLimitBurst`, when set, are written as `Key=<decimal>` among the rate-limit lines |
| UnitSection.DefaultMetadataFieldsSilent | src/systemd/unit.rs:813-814 | with every field of the default `Unit` absent, the formatter calls of this group (`Description` to `Documentation`, 2 keys) write no line |
| UnitSection.DefaultDependencyFieldsSilent | src/systemd/unit.rs:817-823 | with every field of the default `Unit` absent, the formatter calls of this group (`Wants` to `Conflicts`, 7 keys) write no line |
| UnitSection.DefaultOrderingFieldsSilent | src/systemd/unit.rs:826-827 | with every field of the default `Unit` absent, the formatter calls of this group (`Before` to `After`, 2 keys) write no line |
| UnitSection.DefaultLifecycleFieldsSilent | src/systemd/unit.rs:830-835 | with every field of the default `Unit` absent, the formatter calls of this group (`OnFailure` to `StopPropagatedFrom`, 6 keys) write no line |
| UnitSection.DefaultNamespaceFieldsSilent | src/systemd/unit.rs:838-840 | with every field of the default `Unit` absent, the formatter calls of this group (`JoinsNamespaceOf` to `WantsMountsFor`, 3 keys) write no line |
| UnitSection.DefaultJobModeFieldsSilent | src/systemd/unit.rs:843-844 | with every field of the default `Unit` absent, the formatter calls of this group (`OnSuccessJobMode` to `OnFailureJobMode`, 2 keys) write no line |
| UnitSection.DefaultBehaviorFieldsSilent | src/systemd/unit.rs:847-857 | with every field of the default `Unit` absent, the formatter calls of this group (`IgnoreOnIsolate` to `SurviveFinalKillSignal`, 7 keys) write no line |
| UnitSection.DefaultActionFieldsSilent | src/systemd/unit.rs:860-869 | with every field of the default `Unit` absent, the formatter calls of this group (`CollectMode` to `SuccessActionExitStatus`, 5 keys) write no line |
| UnitSection.DefaultTimeoutFieldsSilent | src/systemd/unit.rs:872-883 | with every field of the default `Unit` absent, the formatter calls of this group (`JobTimeoutSec` to `JobTimeoutRebootArgument`, 4 keys) write no line |
| UnitSection.DefaultRateLimitFieldsSilent | src/systemd/unit.rs:886-893 | with every field of the default `Unit` absent, the formatter calls of this group (`StartLimitIntervalSec` to `RebootArgument`, 4 keys) write no line |
| UnitSection.DefaultSourcePathFieldsSilent | src/systemd/unit.rs:896-898 | with every field of the default `Unit` absent, the formatter calls of this group (`SourcePath`) write no line |
| UnitSection.DefaultConditionFieldsSilent | src/systemd/unit.rs:901-981 | with every field of the default `Unit` absent, the formatter calls of this group (`ConditionArchitecture` to `ConditionIOPressure`, 33 keys) write no line |
| UnitSection.DefaultAssertFieldsSilent | src/systemd/unit.rs:984-1040 | with every field of the default `Unit` absent, the formatter calls of this group (`AssertArchitecture` to `AssertIOPressure`, 33 keys) write no line |
| UnitSection.DefaultUnitLines | src/systemd/unit.rs:809-1044 | the default `Unit` writes no option line |
| UnitSection.DefaultUnitText | src/systemd/unit.rs:809-1044 | the default `Unit` renders to exactly `[Unit]\n` |
| UnitSection.Validate | src/systemd/unit.rs:1048-1093 | `Unit::validate` is Ok exactly when every documentation URI starts with `http://`, `https://`, `file:`, `info:` or `man:` and every ConditionCapability and AssertCapability starts with `CAP_` |
| UnitSection.ValidateReportsFirstViolation | src/systemd/unit.rs:1050-1090 | `validate` returns the first complaint of the full list of complaints (documentation, then ConditionCapability, then AssertCapability, each in list order), or Ok when there is none |
| UnitSection.ValidateReportsFirstBadDocumentation | src/systemd/unit.rs:1050-1064 | the first bad documentation URI is reported, with its message, before any capability is looked at |
| UnitSection.ValidateReportsFirstBadConditionCapability | src/systemd/unit.rs:1071-1080 | with the documentation valid, the first ConditionCapability without `CAP_` is reported with its message |
| UnitSection.ValidateReportsFirstBadAssertCapability | src/systemd/unit.rs:1081-1090 | with the other two lists valid, the first AssertCapability without `CAP_` is reported with its message |
| UnitSection.SetDescription | src/systemd/unit.rs:1096-1099 | `Unit::description` sets `description` to `Some(value)` and leaves every other field as it was; a second call overrides the first |
| UnitSection.SetDocumentation | src/systemd/unit.rs:1101-1104 | `Unit::documentation` sets `documentation` to `Some(value)` and leaves every other field as it was; a second call overrides the first |
| UnitSection.SetWants | src/systemd/unit.rs:1106-1109 | `Unit::wants` sets `wants` to `Some(value)` and leaves every other field as it was; a second call overrides the first |
| UnitSection.SetRequires | src/systemd/unit.rs:1111-1114 | `Unit::requires` sets `requires` to `Some(value)` and leaves every other field as it was; a second call overrides the first |
| UnitSection.SetRequisite | src/systemd/unit.rs:1116-1119 | `Unit::requisite` sets `requisite` to `Some(value)` and leaves every other field as it was; a second call overrides the first |
| UnitSection.SetBindsTo | src/systemd/unit.rs:1121-1124 | `Unit::binds_to` sets `binds_to` to `Some(value)` and leaves every other field as it was; a second call overrides the first |
| UnitSection.SetPartOf | src/systemd/unit.rs:1126-1129 | `Unit::part_of` sets `part_of` to `Some(value)` and leaves every other field as it was; a second call overrides the first |
| UnitSection.SetUpholds | src/systemd/unit.rs:1131-1134 | `Unit::upholds` sets `upholds` to `Some(value)` and leaves every other field as it was; a second call overrides the first |
| UnitSection.SetConflicts | src/systemd/unit.rs:1136-1139 | `Unit::conflicts` sets `conflicts` to `Some(value)` and leaves every other field as it was; a second call overrides the first |
| UnitSection.SetBefore | src/systemd/unit.rs:1141-1144 | `Unit::before` sets `before` to `Some(value)` and leaves every other field as it was; a second call overrides the first |
| UnitSection.SetAfter | src/systemd/unit.rs:1146-1149 | `Unit::after` sets `after` to `Some(value)` and leaves every other field as it was; a second call overrides the first |
| UnitSection.SetOnFailure | src/systemd/unit.rs:1151-1154 | `Unit::on_failure` sets `on_failure` to `Some(value)` and leaves every other field as it was; a second call overrides the first |
| UnitSection.SetOnSuccess | src/systemd/unit.rs:1156-1159 | `Unit::on_success` sets `on_success` to `Some(value)` and leaves every other field as it was; a second call overrides the first |
| UnitSection.SetPropagatesReloadTo | src/systemd/unit.rs:1161-1164 | `Unit::propagates_reload_to` sets `propagates_reload_to` to `Some(value)` and leaves every other field as it was; a second call overrides the first |
| UnitSection.SetReloadPropagatedFrom | src/systemd/unit.rs:1166-1169 | `Unit::reload_propagated_from` sets `reload_propagated_from` to `Some(value)` and leaves every other field as it was; a second call overrides the first |
| UnitSection.SetPropagatesStopTo | src/systemd/unit.rs:1171-1174 | `Unit::propagates_stop_to` sets `propagates_stop_to` to `Some(value)` and leaves every other field as it was; a second call overrides the first |
| UnitSection.SetStopPropagatedFrom | src/systemd/unit.rs:1176-1179 | `Unit::stop_propagated_from` sets `stop_propagated_from` to `Some(value)` and leaves every other field as it was; a second call overrides the first |
| UnitSection.SetJoinsNamespaceOf | src/systemd/unit.rs:1181-1184 | `Unit::joins_namespace_of` sets `joins_namespace_of` to `Some(value)` and leaves every other field as it was; a second call overrides the first |
| UnitSection.SetRequiresMountsFor | src/systemd/unit.rs:1186-1189 | `Unit::requires_mounts_for` sets `requires_mounts_for` to `Some(value)` and leaves every other field as it was; a second call overrides the first |
| UnitSection.SetWantsMountsFor | src/systemd/unit.rs:1191-1194 | `Unit::wants_mounts_for` sets `wants_mounts_for` to `Some(value)` and leaves every other field as it was; a second call overrides the first |
| UnitSection.SetOnSuccessJobMode | src/systemd/unit.rs:1196-1199 | `Unit::on_success_job_mode` sets `on_success_job_mode` to `Some(value)` and leaves every other field as it was; a second call overrides the first |
| UnitSection.SetOnFailureJobMode | src/systemd/unit.rs:1201-1204 | `Unit::on_failure_job_mode` sets `on_failure_job_mode` to `Some(value)` and leaves every other field as it was; a second call overrides the first |
| UnitSection.SetIgnoreOnIsolate | src/systemd/unit.rs:1206-1209 | `Unit::ignore_on_isolate` sets `ignore_on_isolate` to `Some(value)` and leaves every other field as it was; a second call overrides the first |
| UnitSection.SetStopWhenUnneeded | src/systemd/unit.rs:1211-1214 | `Unit::stop_when_unneeded` sets `stop_when_unneeded` to `Some(value)` and leaves every other field as it was; a second call overrides the first |
| UnitSection.SetRefuseManualStart | src/systemd/unit.rs:1216-1219 | `Unit::refuse_manual_start` sets `refuse_manual_start` to `Some(value)` and leaves every other field as it was; a second call overrides the first |
| UnitSection.SetRefuseManualStop | src/systemd/unit.rs:1221-1224 | `Unit::refuse_manual_stop` sets `refuse_manual_stop` to `Some(value)` and leaves every other field as it was; a second call overrides the first |
| UnitSection.SetAllowIsolate | src/systemd/unit.rs:1226-1229 | `Unit::allow_isolate` sets `allow_isolate` to `Some(value)` and leaves every other field as it was; a second call overrides the first |
| UnitSection.SetDefaultDependencies | src/systemd/unit.rs:1231-1234 | `Unit::default_dependencies` sets `default_dependencies` to `Some(value)` and leaves every other field as it was; a second call overrides the first |
| UnitSection.SetSurviveFinalKillSignal | src/systemd/unit.rs:1236-1239 | `Unit::survive_final_kill_signal` sets `survive_final_kill_signal` to `Some(value)` and leaves every other field as it was; a second call overrides the first |
| UnitSection.SetCollectMode | src/systemd/unit.rs:1241-1244 | `Unit::collect_mode` sets `collect_mode` to `Some(value)` and leaves every other field as it was; a second call overrides the first |
| UnitSection.SetFailureAction | src/systemd/unit.rs:1246-1249 | `Unit::failure_action` sets `failure_action` to `Some(value)` and leaves every other field as it was; a second call overrides the first |
| UnitSection.SetSuccessAction | src/systemd/unit.rs:1251-1254 | `Unit::success_action` sets `success_action` to `Some(value)` and leaves every other field as it was; a second call overrides the first |
| UnitSection.SetFailureActionExitStatus | src/systemd/unit.rs:1256-1259 | `Unit::failure_action_exit_status` sets `failure_action_exit_status` to `Some(value)` and leaves every other field as it was; a second call overrides the first |
| UnitSection.SetSuccessActionExitStatus | src/systemd/unit.rs:1261-1264 | `Unit::success_action_exit_status` sets `success_action_exit_status` to `Some(value)` and leaves every other field as it was; a second call overrides the first |
| UnitSection.SetJobTimeoutSec | src/systemd/unit.rs:1266-1269 | `Unit::job_timeout_sec` sets `job_timeout_sec` to `Some(value)` and leaves every other field as it was; a second call overrides the first |
| UnitSection.SetJobRunningTimeoutSec | src/systemd/unit.rs:1271-1274 | `Unit::job_running_timeout_sec` sets `job_running_timeout_sec` to `Some(value)` and leaves every other field as it was; a second call overrides the first |
| UnitSection.SetJobTimeoutAction | src/systemd/unit.rs:1276-1279 | `Unit::job_timeout_action` sets `job_timeout_action` to `Some(value)` and leaves every other field as it was; a second call overrides the first |
| UnitSection.SetJobTimeoutRebootArgument | src/systemd/unit.rs:1281-1284 | `Unit::job_timeout_reboot_argument` sets `job_timeout_reboot_argument` to `Some(value)` and leaves every other field as it was; a second call overrides the first |
| UnitSection.SetStartLimitIntervalSec | src/systemd/unit.rs:1286-1289 | `Unit::start_limit_interval_sec` sets `start_limit_interval_sec` to `Some(value)` and leaves every other field as it was; a second call overrides the first |
| UnitSection.SetStartLimitBurst | src/systemd/unit.rs:1291-1294 | `Unit::start_limit_burst` sets `start_limit_burst` to `Some(value)` and leaves every other field as it was; a second call overrides the first |
| UnitSection.SetStartLimitAction | src/systemd/unit.rs:1296-1299 | `Unit::start_limit_action` sets `start_limit_action` to `Some(value)` and leaves every other field as it was; a second call overrides the first |
| UnitSection.SetRebootArgument | src/systemd/unit.rs:1301-1304 | `Unit::reboot_argument` sets `reboot_argument` to `Some(value)` and leaves every other field as it was; a second call overrides the first |
| UnitSection.SetSourcePath | src/systemd/unit.rs:1306-1309 | `Unit::source_path` sets `source_path` to `Some(value)` and leaves every other field as it was; a second call overrides the first |
| UnitSection.SetConditionArchitecture | src/systemd/unit.rs:1311-1314 | `Unit::condition_architecture` sets `condition_architecture` to `Some(value)` and leaves every other field as it was; a second call overrides the first |
| UnitSection.SetConditionFirmware | src/systemd/unit.rs:1316-1319 | `Unit::condition_firmware` sets `condition_firmware` to `Some(value)` and leaves every other field as it was; a second call overrides the first |
| UnitSection.SetConditionVirtualization | src/systemd/unit.rs:1321-1324 | `Unit::condition_virtualization` sets `condition_virtualization` to `Some(value)` and leaves every other field as it was; a second call overrides the first |
| UnitSection.SetConditionHost | src/systemd/unit.rs:1326-1329 | `Unit::condition_host` sets `condition_host` to `Some(value)` and leaves every other field as it was; a second call overrides the first |
| UnitSection.SetConditionKernelCommandLine | src/systemd/unit.rs:1331-1334 | `Unit::condition_kernel_command_line` sets `condition_kernel_command_line` to `Some(value)` and leaves every other field as it was; a second call overrides the first |
| UnitSection.SetConditionKernelVersion | src/systemd/unit.rs:1336-1339 | `Unit::condition_kernel_version` sets `condition_kernel_version` to `Some(value)` and leaves every other field as it was; a second call overrides the first |
| UnitSection.SetConditionCredential | src/systemd/unit.rs:1341-1344 | `Unit::condition_credential` sets `condition_credential` to `Some(value)` and leaves every other field as it was; a second call overrides the first |
| UnitSection.SetConditionEnvironment | src/systemd/unit.rs:1346-1349 | `Unit::condition_environment` sets `condition_environment` to `Some(value)` and leaves every other field as it was; a second call overrides the first |
| UnitSection.SetConditionSecurity | src/systemd/unit.rs:1351-1354 | `Unit::condition_security` sets `condition_security` to `Some(value)` and leaves every other field as it was; a second call overrides the first |
| UnitSection.SetConditionCapability | src/systemd/unit.rs:1356-1359 | `Unit::condition_capability` sets `condition_capability` to `Some(value)` and leaves every other field as it was; a second call overrides the first |
| UnitSection.SetConditionAcPower | src/systemd/unit.rs:1361-1364 | `Unit::condition_ac_power` sets `condition_ac_power` to `Some(value)` and leaves every other field as it was; a second call overrides the first |
| UnitSection.SetConditionNeedsUpdate | src/systemd/unit.rs:1366-1369 | `Unit::condition_needs_update` sets `condition_needs_update` to `Some(value)` and leaves every other field as it was; a second call overrides the first |
| UnitSection.SetConditionFirstBoot | src/systemd/unit.rs:1371-1374 | `Unit::condition_first_boot` sets `condition_first_boot` to `Some(value)` and leaves every other field as it was; a second call overrides the first |
| UnitSection.SetConditionPathExists | src/systemd/unit.rs:1376-1379 | `Unit::condition_path_exists` sets `condition_path_exists` to `Some(value)` and leaves every other field as it was; a second call overrides the first |
| UnitSection.SetConditionPathExistsGlob | src/systemd/unit.rs:1381-1384 | `Unit::condition_path_exists_glob` sets `condition_path_exists_glob` to `Some(value)` and leaves every other field as it was; a second call overrides the first |
| UnitSection.SetConditionPathIsDirectory | src/systemd/unit.rs:1386-1389 | `Unit::condition_path_is_directory` sets `condition_path_is_directory` to `Some(value)` and leaves every other field as it was; a second call overrides the first |
| UnitSection.SetConditionPathIsSymbolicLink | src/systemd/unit.rs:1391-1394 | `Unit::condition_path_is_symbolic_link` sets `condition_path_is_symbolic_link` to `Some(value)` and leaves every other field as it was; a second call overrides the first |
| UnitSection.SetConditionPathIsMountPoint | src/systemd/unit.rs:1396-1399 | `Unit::condition_path_is_mount_point` sets `condition_path_is_mount_point` to `Some(value)` and leaves every other field as it was; a second call overrides the first |
| UnitSection.SetConditionPathIsReadWrite | src/systemd/unit.rs:1401-1404 | `Unit::condition_path_is_read_write` sets `condition_path_is_read_write` to `Some(value)` and leaves every other field as it was; a second call overrides the first |
| UnitSection.SetConditionPathIsEncrypted | src/systemd/unit.rs:1406-1409 | `Unit::condition_path_is_encrypted` sets `condition_path_is_encrypted` to `Some(value)` and leaves every other field as it was; a second call overrides the first |
| UnitSection.SetConditionDirectoryNotEmpty | src/systemd/unit.rs:1411-1414 | `Unit::condition_directory_not_empty` sets `condition_directory_not_empty` to `Some(value)` and leaves every other field as it was; a second call overrides the first |
| UnitSection.SetConditionFileNotEmpty | src/systemd/unit.rs:1416-1419 | `Unit::condition_file_not_empty` sets `condition_file_not_empty` to `Some(value)` and leaves every other field as it was; a second call overrides the first |
| UnitSection.SetConditionFileIsExecutable | src/systemd/unit.rs:1421-1424 | `Unit::condition_file_is_executable` sets `condition_file_is_executable` to `Some(value)` and leaves every other field as it was; a second call overrides the first |
| UnitSection.SetConditionUser | src/systemd/unit.rs:1426-1429 | `Unit::condition_user` sets `condition_user` to `Some(value)` and leaves every other field as it was; a second call overrides the first |
| UnitSection.SetConditionGroup | src/systemd/unit.rs:1431-1434 | `Unit::condition_group` sets `condition_group` to `Some(value)` and leaves every other field as it was; a second call overrides the first |
| UnitSection.SetConditionControlGroupController | src/systemd/unit.rs:1436-1439 | `Unit::condition_control_group_controller` sets `condition_control_group_controller` to `Some(value)` and leaves every other field as it was; a second call overrides the first |
| UnitSection.SetConditionMemory | src/systemd/unit.rs:1442-1445 | `Unit::condition_memory` sets `condition_memory` to `Some(value)` and leaves every other field as it was; a second call overrides the first |
| UnitSection.SetConditionCpus | src/systemd/unit.rs:1447-1450 | `Unit::condition_cpus` sets `condition_cpus` to `Some(value)` and leaves every other field as it was; a second call overrides the first |
| UnitSection.SetConditionCpuFeature | src/systemd/unit.rs:1452-1455 | `Unit::condition_cpu_feature` sets `condition_cpu_feature` to `Some(value)` and leaves every other field as it was; a second call overrides the first |
| UnitSection.SetConditionOsRelease | src/systemd/unit.rs:1457-1460 | `Unit::condition_os_release` sets `condition_os_release` to `Some(value)` and leaves every other field as it was; a second call overrides the first |
| UnitSection.SetConditionMemoryPressure | src/systemd/unit.rs:1462-1465 | `Unit::condition_memory_pressure` sets `condition_memory_pressure` to `Some(value)` and leaves every other field as it was; a second call overrides the first |
| UnitSection.SetConditionCpuPressure | src/systemd/unit.rs:1467-1470 | `Unit::condition_cpu_pressure` sets `condition_cpu_pressure` to `Some(value)` and leaves every other field as it was; a second call overrides the first |
| UnitSection.SetConditionIoPressure | src/systemd/unit.rs:1472-1475 | `Unit::condition_io_pressure` sets `condition_io_pressure` to `Some(value)` and leaves every other field as it was; a second call overrides the first |
| UnitSection.SetAssertArchitecture | src/systemd/unit.rs:1477-1480 | `Unit::assert_architecture` sets `assert_architecture` to `Some(value)` and leaves every other field as it was; a second call overrides the first |
| UnitSection.SetAssertFirmware | src/systemd/unit.rs:1482-1485 | `Unit::assert_firmware` sets `assert_firmware` to `Some(value)` and leaves every other field as it was; a second call overrides the first |
| UnitSection.SetAssertVirtualization | src/systemd/unit.rs:1487-1490 | `Unit::assert_virtualization` sets `assert_virtualization` to `Some(value)` and leaves every other field as it was; a second call overrides the first |
| UnitSection.SetAssertHost | src/systemd/unit.rs:1492-1495 | `Unit::assert_host` sets `assert_host` to `Some(value)` and leaves every other field as it was; a second call overrides the first |
| UnitSection.SetAssertKernelCommandLine | src/systemd/unit.rs:1497-1500 | `Unit::assert_kernel_command_line` sets `assert_kernel_command_line` to `Some(value)` and leaves every other field as it was; a second call overrides the first |
| UnitSection.SetAssertKernelVersion | src/systemd/unit.rs:1502-1505 | `Unit::assert_kernel_version` sets `assert_kernel_version` to `Some(value)` and leaves every other field as it was; a second call overrides the first |
| UnitSection.SetAssertCredential | src/systemd/unit.rs:1507-1510 | `Unit::assert_credential` sets `assert_credential` to `Some(value)` and leaves every other field as it was; a second call overrides the first |
| UnitSection.SetAssertEnvironment | src/systemd/unit.rs:1512-1515 | `Unit::assert_environment` sets `assert_environment` to `Some(value)` and leaves every other field as it was; a second call overrides the first |
| UnitSection.SetAssertSecurity | src/systemd/unit.rs:1517-1520 | `Unit::assert_security` sets `assert_security` to `Some(value)` and leaves every other field as it was; a second call overrides the first |
| UnitSection.SetAssertCapability | src/systemd/unit.rs:1522-1525 | `Unit::assert_capability` sets `assert_capability` to `Some(value)` and leaves every other field as it was; a second call overrides the first |
| UnitSection.SetAssertAcPower | src/systemd/unit.rs:1527-1530 | `Unit::assert_ac_power` sets `assert_ac_power` to `Some(value)` and leaves every other field as it was; a second call overrides the first |
| UnitSection.SetAssertNeedsUpdate | src/systemd/unit.rs:1532-1535 | `Unit::assert_needs_update` sets `assert_needs_update` to `Some(value)` and leaves every other field as it was; a second call overrides the first |
| UnitSection.SetAssertFirstBoot | src/systemd/unit.rs:1537-1540 | `Unit::assert_first_boot` sets `assert_first_boot` to `Some(value)` and leaves every other field as it was; a second call overrides the first |
| UnitSection.SetAssertPathExists | src/systemd/unit.rs:1542-1545 | `Unit::assert_path_exists` sets `assert_path_exists` to `Some(value)` and leaves every other field as it was; a second call overrides the first |
| UnitSection.SetAssertPathExistsGlob | src/systemd/unit.rs:1547-1550 | `Unit::assert_path_exists_glob` sets `assert_path_exists_glob` to `Some(value)` and leaves every other field as it was; a second call overrides the first |
| UnitSection.SetAssertPathIsDirectory | src/systemd/unit.rs:1552-1555 | `Unit::assert_path_is_directory` sets `assert_path_is_directory` to `Some(value)` and leaves every other field as it was; a second call overrides the first |
| UnitSection.SetAssertPathIsSymbolicLink | src/systemd/unit.rs:1557-1560 | `Unit::assert_path_is_symbolic_link` sets `assert_path_is_symbolic_link` to `Some(value)` and leaves every other field as it was; a second call overrides the first |
| UnitSection.SetAssertPathIsMountPoint | src/systemd/unit.rs:1562-1565 | `Unit::assert_path_is_mount_point` sets `assert_path_is_mount_point` to `Some(value)` and leaves every other field as it was; a second call overrides the first |
| UnitSection.SetAssertPathIsReadWrite | src/systemd/unit.rs:1567-1570 | `Unit::assert_path_is_read_write` sets `assert_path_is_read_write` to `Some(value)` and leaves every other field as it was; a second call overrides the first |
| UnitSection.SetAssertPathIsEncrypted | src/systemd/unit.rs:1572-1575 | `Unit::assert_path_is_encrypted` sets `assert_path_is_encrypted` to `Some(value)` and leaves every other field as it was; a second call overrides the first |
| UnitSection.SetAssertDirectoryNotEmpty | src/systemd/unit.rs:1577-1580 | `Unit::assert_directory_not_empty` sets `assert_directory_not_empty` to `Some(value)` and leaves every other field as it was; a second call overrides the first |
| UnitSection.SetAssertFileNotEmpty | src/systemd/unit.rs:1582-1585 | `Unit::assert_file_not_empty` sets `assert_file_not_empty` to `Some(value)` and leaves every other field as it was; a second call overrides the first |
| UnitSection.SetAssertFileIsExecutable | src/systemd/unit.rs:1587-1590 | `Unit::assert_file_is_executable` sets `assert_file_is_executable` to `Some(value)` and leaves every other field as it was; a second call overrides the first |
| UnitSection.SetAssertUser | src/systemd/unit.rs:1592-1595 | `Unit::assert_user` sets `assert_user` to `Some(value)` and leaves every other field as it was; a second call overrides the first |
| UnitSection.SetAssertGroup | src/systemd/unit.rs:1597-1600 | `Unit::assert_group` sets `assert_group` to `Some(value)` and leaves every other field as it was; a second call overrides the first |
| UnitSection.SetAssertControlGroupController | src/systemd/unit.rs:1602-1605 | `Unit::assert_control_group_controller` sets `assert_control_group_controller` to `Some(value)` and leaves every other field as it was; a second call overrides the first |
| UnitSection.SetAssertMemory | src/systemd/unit.rs:1607-1610 | `Unit::assert_memory` sets `assert_memory` to `Some(value)` and leaves every other field as it was; a second call overrides the first |
| UnitSection.SetAssertCpus | src/systemd/unit.rs:1612-1615 | `Unit::assert_cpus` sets `assert_cpus` to `Some(value)` and leaves every other field as it was; a second call overrides the first |
| UnitSection.SetAssertCpuFeature | src/systemd/unit.rs:1617-1620 | `Unit::assert_cpu_feature` sets `assert_cpu_feature` to `Some(value)` and leaves every other field as it was; a second call overrides the first |
| UnitSection.SetAssertOsRelease | src/systemd/unit.rs:1622-1625 | `Unit::assert_os_release` sets `assert_os_release` to `Some(value)` and leaves every other field as it was; a second call overrides the first |
| UnitSection.SetAssertMemoryPressure | src/systemd/unit.rs:1627-1630 | `Unit::assert_memory_pressure` sets `assert_memory_pressure` to `Some(value)` and leaves every other field as it was; a second call overrides the first |
| UnitSection.SetAssertCpuPressure | src/systemd/unit.rs:1632-1635 | `Unit::assert_cpu_pressure` sets `assert_cpu_pressure` to `Some(value)` and leaves every other field as it was; a second call overrides the first |
| UnitSection.SetAssertIoPressure | src/systemd/unit.rs:1637-1640 | `Unit::assert_io_pressure` sets `assert_io_pressure` to `Some(value)` and leaves every other field as it was; a second call overrides the first |
| ExecSection.Fmt | src/systemd/exec.rs:162-258 | `Display for Exec` appends `ExecText(e)`: every formatter invocation and hand-written loop of the source, in source order, with no header |
| ExecSection.ExecText | src/systemd/exec.rs:162-258 | the option lines of `Display for Exec`, each ended by a newline, with no header; `ExecLinesByGroup` states their order |
| ExecSection.ExecLinesByGroup | src/systemd/exec.rs:164-255 | the lines come group by group: paths, identity, environment, limits, security, capabilities, process, file system, network |
| ExecSection.DefaultPathFieldsSilent | src/systemd/exec.rs:165-191 | with every field of the default `Exec` absent, the formatter calls of this group (`WorkingDirectory` to `RootEphemeral`, 11 keys) write no line |
| ExecSection.DefaultIdentityFieldsSilent | src/systemd/exec.rs:194-197 | with every field of the default `Exec` absent, the formatter calls of this group (`User` to `PAMName`, 4 keys) write no line |
| ExecSection.DefaultEnvironmentFieldsSilent | src/systemd/exec.rs:200-207 | with every field of the default `Exec` absent, the formatter calls of this group (`Environment` to `UnsetEnvironment`, 4 keys) write no line |
| ExecSection.DefaultLimitFieldsSilent | src/systemd/exec.rs:210-211 | with every field of the default `Exec` absent, the formatter calls of this group (`LimitCPU` to `LimitFSIZE`, 2 keys) write no line |
| ExecSection.DefaultSecurityFieldsSilent | src/systemd/exec.rs:214-219 | with every field of the default `Exec` absent, the formatter calls of this group (`NoNewPrivileges` to `ProtectControlGroups`, 6 keys) write no line |
| ExecSection.DefaultCapabilityFieldsSilent | src/systemd/exec.rs:222-223 | with every field of the default `Exec` absent, the formatter calls of this group (`CapabilityBoundingSet` to `AmbientCapabilities`, 2 keys) write no line |
| ExecSection.DefaultProcessFieldsSilent | src/systemd/exec.rs:226-231 | with every field of the default `Exec` absent, the formatter calls of this group (`Nice` to `OOMScoreAdjust`, 2 keys) write no line |
| ExecSection.DefaultFileSystemFieldsSilent | src/systemd/exec.rs:234-248 | with every field of the default `Exec` absent, the formatter calls of this group (`ReadWritePaths` to `InaccessiblePaths`, 3 keys) write no line |
| ExecSection.DefaultNetworkFieldsSilent | src/systemd/exec.rs:251-254 | with every field of the default `Exec` absent, the formatter calls of this group (`PrivateNetwork` to `NetworkNamespacePath`, 2 keys) write no line |
| ExecSection.DefaultExecText | src/systemd/exec.rs:162-258 | the default `Exec` renders to the empty string: there is no section header |
| ExecSection.ProcessNumbersRenderSigned | src/systemd/exec.rs:226-231 | `Nice` and `OOMScoreAdjust`, when set, are written as `Key=<signed decimal>` |
| ExecSection.ExecLineForms | src/systemd/exec.rs:179-248 | `EnvironmentFile` and the three path lists are written one `Key=path` line per element, in order; `Environment` and both capability lists are one space-joined line |
| ExecSection.OnlyPathGroupWrites | src/systemd/exec.rs:164-255 | when every group but the path group is silent, the rendering is the path group's lines |
| ExecSection.SignaturePathLines | src/systemd/exec.rs:179-190 | each of the four root-hash-signature fields, set alone, writes the single line `RootHashSignature=<path>` |
| ExecSection.RootHashSignatureSharedKey | src/systemd/exec.rs:179-190 | all four root-hash-signature fields render under the same key `RootHashSignature`: an `Exec` with only one of them set renders that one line |
| ExecSection.CheckLevels | src/systemd/exec.rs:268-283 | the two range checks pass exactly when `nice` is absent or in [-20, 19] and `oom_score_adjust` is absent or in [-1000, 1000] |
| ExecSection.CheckEnvironment | src/systemd/exec.rs:285-326 | the environment loops pass exactly when every `environment` entry is a `KEY=VALUE` assignment and no `pass_environment` or `unset_environment` entry contains `=` |
| ExecSection.CheckCapabilities | src/systemd/exec.rs:328-343 | the capability loops pass exactly when every bounding-set and ambient capability starts with `CAP_` |
| ExecSection.CheckNames | src/systemd/exec.rs:345-361 | the last two loops pass exactly when no supplementary group name and no root image option is empty |
| ExecSection.Validate | src/systemd/exec.rs:267-364 | `Exec::validate` is Ok exactly when all nine checks pass |
| ExecSection.CheckLevelsFirstViolation | src/systemd/exec.rs:268-283 | the range checks report the first of their violations, `nice` before `oom_score_adjust` |
| ExecSection.CheckEnvironmentFirstViolation | src/systemd/exec.rs:285-326 | the environment loops report the first violation, `environment` before `pass_environment` before `unset_environment`, each in list order |
| ExecSection.CheckCapabilitiesFirstViolation | src/systemd/exec.rs:328-343 | the capability loops report the first violation, bounding set before ambient capabilities |
| ExecSection.CheckNamesFirstViolation | src/systemd/exec.rs:345-361 | the name loops report the first violation, supplementary groups before root image options |
| ExecSection.ValidateReportsFirstViolation | src/systemd/exec.rs:267-364 | `validate` returns the first complaint of the full list in source order, or Ok when there is none |
| ExecSection.EnvironmentAssignmentShape | src/systemd/exec.rs:286-302 | an environment entry passes exactly when it contains `=` and does not start with one (the value may be empty) |
| ExecSection.EnvironmentExamples | src/systemd/exec.rs:286-302 | `FOO=bar` and `FOO=` pass; `FOO` and `=bar` fail |
| ExecSection.NiceBounds | src/systemd/exec.rs:268-273 | nice -20 and 19 are accepted, -21 and 20 are rejected with the nice message |
| ExecSection.SetWorkingDirectory | src/systemd/exec.rs:367-370 | `Exec::working_directory` sets `working_directory` to `Some(value)` and leaves every other field as it was; a second call overrides the first |
| ExecSection.SetUser | src/systemd/exec.rs:372-375 | `Exec::user` sets `user` to `Some(value)` and leaves every other field as it was; a second call overrides the first |
| ExecSection.SetGroup | src/systemd/exec.rs:377-380 | `Exec::group` sets `group` to `Some(value)` and leaves every other field as it was; a second call overrides the first |
| ExecSection.SetEnvironment | src/systemd/exec.rs:382-385 | `Exec::environment` sets `environment` to `Some(value)` and leaves every other field as it was; a second call overrides the first |
| ExecSection.SetNoNewPrivileges | src/systemd/exec.rs:387-390 | `Exec::no_new_privileges` sets `no_new_privileges` to `Some(value)` and leaves every other field as it was; a second call overrides the first |
| ExecSection.SetPrivateTmp | src/systemd/exec.rs:392-395 | `Exec::private_tmp` sets `private_tmp` to `Some(value)` and leaves every other field as it was; a second call overrides the first |
| ServiceSection.Fmt | src/systemd/service.rs:180-262 | `Display for Service` appends `ServiceText(s)`: the `[Service]` header and every formatter invocation of the source, in source order |
| ServiceSection.ServiceText | src/systemd/service.rs:180-262 | the `[Service]` header followed by the option lines, each ended by a newline; `ServiceTextShape` states its shape |
| ServiceSection.ServiceTextShape | src/systemd/service.rs:182 | the rendering starts with `[Service]\n` and is that header followed by the option lines |
| ServiceSection.ServiceLinesByGroup | src/systemd/service.rs:183-259 | the option lines come group by group: behaviour, commands, restart, timeouts, runtime, environment, descriptors, resources, signals |
| ServiceSection.DefaultBehaviorFieldsSilent | src/systemd/service.rs:184-193 | with every field of the default `Service` absent, the formatter calls of this group (`Type` to `BusName`, 6 keys) write no line |
| ServiceSection.DefaultCommandFieldsSilent | src/systemd/service.rs:196-202 | with every field of the default `Service` absent, the formatter calls of this group (`ExecCondition` to `ExecStopPost`, 7 keys) write no line |
| ServiceSection.DefaultRestartFieldsSilent | src/systemd/service.rs:205-218 | with every field of the default `Service` absent, the formatter calls of this group (`Restart` to `RestartForceExitStatus`, 8 keys) write no line |
| ServiceSection.DefaultTimeoutFieldsSilent | src/systemd/service.rs:221-226 | with every field of the default `Service` absent, the formatter calls of this group (`TimeoutStartSec` to `TimeoutStopFailureMode`, 6 keys) write no line |
| ServiceSection.DefaultRuntimeFieldsSilent | src/systemd/service.rs:229-231 | with every field of the default `Service` absent, the formatter calls of this group (`RuntimeMaxSec` to `WatchdogSec`, 3 keys) write no line |
| ServiceSection.DefaultEnvironmentFieldsSilent | src/systemd/service.rs:234-236 | with every field of the default `Service` absent, the formatter calls of this group (`RootDirectoryStartOnly` to `NotifyAccess`, 3 keys) write no line |
| ServiceSection.DefaultDescriptorFieldsSilent | src/systemd/service.rs:239-252 | with every field of the default `Service` absent, the formatter calls of this group (`Sockets` to `USBFunctionStrings`, 5 keys) write no line |
| ServiceSection.DefaultResourceFieldsSilent | src/systemd/service.rs:255-256 | with every field of the default `Service` absent, the formatter calls of this group (`OOMPolicy` to `OpenFile`, 2 keys) write no line |
| ServiceSection.DefaultSignalFieldsSilent | src/systemd/service.rs:259-259 | with every field of the default `Service` absent, the formatter calls of this group (`ReloadSignal`) write no line |
| ServiceSection.DefaultServiceText | src/systemd/service.rs:182-261 | the default `Service` renders to exactly `[Service]\n` |
| ServiceSection.CommandOrder | src/systemd/service.rs:195-202 | the command lines come in the order ExecCondition, ExecStartPre, ExecStart, ExecStartPost, ExecReload, ExecStop, ExecStopPost, each written with `write_vec!` |
| ServiceSection.ExecStartSingleLine | src/systemd/service.rs:195-198 | a non-empty `exec_start` list is one space-joined `ExecStart=` line that splits back into the list when no command holds a space; an empty list writes no line |
| ServiceSection.StringSettingsVerbatim | src/systemd/service.rs:184-255 | Type, ExitType, Restart, RestartMode, NotifyAccess and OOMPolicy are strings written after `Key=` unchanged, with no vocabulary check |
| ServiceSection.RestartNumbersRenderDecimal | src/systemd/service.rs:208-213 | `RestartSec` and `RestartSteps`, when set, are written as `Key=<decimal>` |
| ServiceSection.DescriptorNumbersRenderDecimal | src/systemd/service.rs:241-243 | `FileDescriptorStoreMax`, when set, is written as `Key=<decimal>` |
| ServiceSection.RestartOrder | src/systemd/service.rs:205-215 | the restart group opens with `Restart`, then `RestartMode`, then `RestartSec`, each line present only when its field is set |
| ServiceSection.ReloadSignalLast | src/systemd/service.rs:259 | when `ReloadSignal` is set, its line is the last of the section's option lines |
| ServiceSection.ReloadSignalLastInText | src/systemd/service.rs:180-261 | when no option line holds a line break, the written section read back line by line is its header and its option lines, and a set `ReloadSignal` is its last line |
| InstallSection.Fmt | src/systemd/install.rs:30-42 | `Display for Install` appends `InstallText(i)`: the `[Install]` header and the six formatter invocations |
| InstallSection.InstallTextShape | src/systemd/install.rs:32 | the rendering starts with `[Install]\n` and is that header followed by the option lines |
| InstallSection.DefaultInstallText | src/systemd/install.rs:30-41 | the default `Install` renders to exactly `[Install]\n` |
| InstallSection.InstallKeyOrder | src/systemd/install.rs:34-39 | the keys come in the order Alias, WantedBy, RequiredBy, UpheldBy, Also, DefaultInstance, the five lists each written with `write_vec!` |
| InstallSection.InstallLineCount | src/systemd/install.rs:32-39 | the number of option lines is the number of present non-empty lists plus one when `DefaultInstance` is set |
| InstallSection.InstallNewlineCount | src/systemd/install.rs:32-39 | the text holds one newline more than there are option lines, provided no value holds a line break |
| Systemd.Fmt | src/systemd/mod.rs:35-42 | `Display for Config` appends the Unit text, then the Service text, then the Install text |
| Systemd.ConfigText | src/systemd/mod.rs:35-42 | the Unit text, then the Service text, then the Install text; `ConfigTextLines` states that nothing else is written |
| Systemd.ConfigTextLines | src/systemd/mod.rs:35-42 | the document is exactly the lines of the three sections, headers included, with nothing written between or around the sections |
| Systemd.DefaultConfigText | src/systemd/mod.rs:35-42 | a configuration with default sections renders `[Unit]\n[Service]\n[Install]\n` |
| Systemd.UnitName | src/systemd/mod.rs:45-47 | `unit_name` is the service name followed by `.service`; the older `unit_name` (src/systemd.rs:101-103) builds the same text, so the older controller uses this member too |
| Systemd.ConfigPath | src/systemd/mod.rs:71-73 | `config_path` is `/etc/systemd/system/` followed by the unit name; the older `config_path` (src/systemd.rs:127-129) builds the same path, so the older controller uses this member too |
| Systemd.NamesInjective | src/systemd/mod.rs:45-73 | different service names give different unit names and different unit files |
| Systemd.StatusTextRoundTrip | src/systemd/mod.rs:76-86 | `Display for Status` gives each status its own text (`Running`, `Stopped`, `Unknown`, `Not installed`, `Failed`), from which it is read back |
| Systemd.StatusText | src/systemd/mod.rs:76-86 | `Display for Status`: the text of each status; `StatusTextRoundTrip` states that each text is distinct and read back |
| Systemd.StatusOfToken | src/systemd/mod.rs:222-251 | the match on the trimmed `is-active` answer, for every token: Running exactly for `active` and `activating`, Failed exactly for `failed`, no status (the listing decides) exactly for `inactive`, and NotInstalled exactly for every other token; never Unknown or Stopped |
| Systemd.StatusOfStates | src/systemd/mod.rs:222-251 | `active` and `activating` map to Running, `failed` to Failed, and other tokens such as `reloading` or `deactivating` to NotInstalled |
| Systemd.StatusOfListing | src/systemd/mod.rs:243-247 | after `inactive`, the status is Stopped exactly when the listing contains the unit name as a substring, and NotInstalled otherwise |
| Effects.Effect | src/systemd/mod.rs:96-146 | creating a file adds its path to the existing files, removing it takes the path away, and every other step leaves the files alone |
| Effects.ExecuteStopsAtFirstFailure | src/systemd/mod.rs:89-129 | a chain of `?`: when step `k` is the first to fail, exactly the steps up to and including it are attempted and its error is returned |
| Effects.ExecuteCompletes | src/systemd/mod.rs:89-129 | when no step fails, every step is attempted in order and the chain returns Ok |
| Effects.ExecuteOkIffNoFailure | src/systemd/mod.rs:89-129 | a chain of steps succeeds exactly when none of its steps fails |
| Effects.HarmlessStepsKeepFiles | src/systemd/mod.rs:151-203 | steps that only run `systemctl`, write or change permissions leave the set of existing files as it was |
| Effects.Host.Do | src/systemd/mod.rs:96-146 | attempting one step logs it and, unless the world makes it fail, applies its effect to the files |
| Effects.Host.Run | src/systemd/mod.rs:104-107 | `Command::output()?`: an I/O error when the process cannot be spawned, otherwise the answer of `systemctl`; the command is logged and no file changes |
| Effects.Host.Try | src/systemd/mod.rs:104-116 | one step of a chain is attempted, logged, and ends the chain with its I/O error or, when its exit status is checked and unsuccessful, with its stderr error |
| Effects.Host.Perform | src/systemd/mod.rs:89-129 | running a chain of steps returns the result of `Execute`, logs exactly the steps `Execute` attempts and applies their effects |
| Systemd.InstallPlan | src/systemd/mod.rs:96-128 | the chain of `install` once the file is absent: create, write the contents, chmod 0644, `enable <unit>` and `daemon-reload`, the last two with their exit status checked; `InstallSucceeds` states its outcome |
| Systemd.InstallRun | src/systemd/mod.rs:89-129 | `install`: the ValidationError with no step when the file exists, otherwise the chain `InstallPlan`; `InstallRefusesExistingFile` and `InstallSucceeds` state its outcome |
| Systemd.Install | src/systemd/mod.rs:89-129 | `install` returns the result of `InstallRun` for the rendered configuration, logs exactly its steps and leaves the files as those steps make them |
| Systemd.InstallFile | src/systemd/mod.rs:89-129 | the same, for any file contents: the existence check followed by the chain create, write, chmod 0644, enable, daemon-reload |
| Systemd.InstallRefusesExistingFile | src/systemd/mod.rs:90-95 | with the unit file present, `install` returns a ValidationError naming the quoted path and attempts no step |
| Systemd.InstallSucceeds | src/systemd/mod.rs:89-129 | `install` is Ok exactly when the file was absent and none of the five steps fails; it then has made the five steps in order (create, write the contents, chmod 0644, enable, daemon-reload) and the unit file exists |
| Systemd.CreatedFileStays | src/systemd/mod.rs:96-128 | a file created by a first step that went through is still there after steps that touch no file |
| Systemd.InstallEnableFailureLeavesFile | src/systemd/mod.rs:104-116 | when `enable` exits unsuccessfully, `install` returns a CommandError with its stderr, does not reload the daemon, and the unit file stays |
| Systemd.UninstallPlan | src/systemd/mod.rs:131-149 | the chain of `uninstall`: `disable <unit>` with its exit status checked, then the removal of the unit file; `UninstallDisablesFirst` states its outcome |
| Systemd.Uninstall | src/systemd/mod.rs:131-149 | `uninstall` returns the result of its chain (disable, remove the file), logs exactly the steps attempted and applies their effects |
| Systemd.UninstallDisablesFirst | src/systemd/mod.rs:131-149 | `disable` comes first; when it fails its error is returned and the file stays; otherwise the result is Ok exactly when the removal goes through, and the file is then gone |
| Systemd.ControlPlan | src/systemd/mod.rs:151-203 | the one command of `start`, `stop` or `restart`, with its exit status checked and `Failed to <verb> service: ` before the stderr; `ControlOutcome` states its outcome |
| Systemd.Start | src/systemd/mod.rs:151-167 | `start` runs `systemctl start <unit>` and returns the result of that one-step chain; the files do not change |
| Systemd.Stop | src/systemd/mod.rs:169-185 | `stop` runs `systemctl stop <unit>` and returns the result of that one-step chain; the files do not change |
| Systemd.Restart | src/systemd/mod.rs:187-203 | `restart` runs `systemctl restart <unit>` and returns the result of that one-step chain; the files do not change |
| Systemd.ControlOutcome | src/systemd/mod.rs:151-203 | `start`, `stop` and `restart` run one command on the unit and are Ok exactly when it was spawned and exited successfully; an unsuccessful exit is a CommandError with its stderr |
| Systemd.ControlKeepsFiles | src/systemd/mod.rs:151-203 | `start`, `stop` and `restart` never touch the unit file |
| Systemd.StatusRun | src/systemd/mod.rs:205-253 | what `status` queries and returns, for every answer of `systemctl`; `StatusOfUnspawned`, `StatusFailsOnUnsuccessfulExit`, `StatusOfSuccessfulAnswer` and `StatusNeverUnknown` state it |
| Systemd.ListingRun | src/systemd/mod.rs:225-247 | the listing query is one `list-unit-files -t service <unit>` command; it is Ok exactly when spawned and successful, with the status `StatusOfListing` of its stdout |
| Systemd.QueryStatus | src/systemd/mod.rs:205-253 | `status` returns the result of `StatusRun`, logs exactly its queries and changes no file; `StatusOfUnspawned`, `StatusFailsOnUnsuccessfulExit` and `StatusOfSuccessfulAnswer` state that result for every answer |
| Systemd.StatusOfUnspawned | src/systemd/mod.rs:206-209 | when `is-active` cannot be spawned, `status` makes that one attempt and returns its I/O error |
| Systemd.StatusFailsOnUnsuccessfulExit | src/systemd/mod.rs:206-220 | when `is-active` exits unsuccessfully, whatever it printed, `status` makes no other query and returns a CommandError of `Failed to get service status: ` followed by its stderr |
| Systemd.StatusOfSuccessfulAnswer | src/systemd/mod.rs:211-251 | when `is-active` exits successfully: for `inactive`, `status` is `is-active` followed by the listing query and returns the listing's result; for any other state it makes no other query and returns the state's status; the result is Running exactly for `active` and `activating`, Failed exactly for `failed`, and NotInstalled for any state outside the four |
| Systemd.QueryListing | src/systemd/mod.rs:225-247 | the listing query of `status` returns the result of `ListingRun`, logs exactly its one command and changes no file |
| Systemd.StatusNeverUnknown | src/systemd/mod.rs:222-251 | `status` never returns Unknown, and returns Stopped only after the listing query found the unit name |
| Systemd.StatusQueriesListingOnlyWhenInactive | src/systemd/mod.rs:205-248 | `is-active` is always queried first; the listing is queried exactly when `is-active` was spawned, exited successfully and answered `inactive`; no file changes |
| Systemd.StatusOfAnswer | src/systemd/mod.rs:205-253 | when `is-active` exits successfully and prints a state other than `inactive` on its own line, `status` makes that one query and returns the status the state maps to |
| Legacy.OptionalSetting | src/systemd.rs:64-82 | an optional template line is absent when its field is, and is `Key=value` otherwise |
| Legacy.EnvironmentLines | src/systemd.rs:87-92 | one `Environment=key=value` line per pair, in list order |
| Legacy.WriteEnvironment | src/systemd.rs:87-92 | the `for` loop over the environment pairs appends exactly the environment lines (loop invariant: the lines of the pairs visited so far) |
| Legacy.Fmt | src/systemd.rs:30-98 | `Display for Config` appends `LegacyText(c)`, the fixed template with the configured values filled in |
| Legacy.WriteUnitPart | src/systemd.rs:32-34 | appends `[Unit]` and `Description=<display_name>` |
| Legacy.WriteServiceHead | src/systemd.rs:36-62 | appends `[Service]`, `StartLimitInterval=5`, `StartLimitBurst=10`, the ExecStart line, `KillSignal=SIGINT` and the Restart line |
| Legacy.WriteExecStart | src/systemd.rs:40-54 | the `match` on `args` appends the single line `ExecStart=<command line>` |
| Legacy.WriteRestart | src/systemd.rs:58-62 | the `if` on `restart` appends the single Restart line |
| Legacy.WriteOptionalPart | src/systemd.rs:64-82 | appends the RootDirectory, WorkingDirectory and User lines, each only when set |
| Legacy.WriteServiceTail | src/systemd.rs:84-92 | appends `RestartSec=120`, `EnvironmentFile=-/etc/sysconfig/` and the environment lines |
| Legacy.WriteInstallPart | src/systemd.rs:94-95 | appends `[Install]` and `WantedBy=multi-user.target` |
| Legacy.UnitPartValues | src/systemd.rs:32-34 | the `[Unit]` block sets `Description` to the display name and no other key |
| Legacy.ServiceHeadValues | src/systemd.rs:36-62 | the head of `[Service]` sets StartLimitInterval=5, StartLimitBurst=10, ExecStart, KillSignal=SIGINT and Restart, in that order, and no other key |
| Legacy.OptionalPartValues | src/systemd.rs:64-82 | the optional block sets RootDirectory, WorkingDirectory and User, in that order, each only when set |
| Legacy.ServiceTailValues | src/systemd.rs:84-92 | the tail of `[Service]` sets RestartSec=120, EnvironmentFile=-/etc/sysconfig/ and one Environment value per pair |
| Legacy.InstallPartValues | src/systemd.rs:94-95 | the `[Install]` block sets `WantedBy=multi-user.target` and no other key |
| Legacy.TemplateValues | src/systemd.rs:30-98 | what is read under a key from the template's whole line list is what each block sets, block by block in template order |
| Legacy.LegacyDescription | src/systemd.rs:30-34 | in the template's line list, `Description=` appears once, with the display name; the `description` field never affects the written text |
| Legacy.LegacyExecStart | src/systemd.rs:40-54 | in the template's line list, `ExecStart=` appears once, holding the command line |
| Legacy.LegacyRestart | src/systemd.rs:58-62 | in the template's line list, `Restart=` appears once: `always` exactly when `restart` is true, `no` otherwise |
| Legacy.LegacyRestartSec | src/systemd.rs:84 | in the template's line list, `RestartSec=` appears once with `120`; `restart_sec` never affects the written text |
| Legacy.LegacyEnvironment | src/systemd.rs:87-92 | in the template's line list, the Environment values are the `key=value` pairs in list order, and there is none when the list is absent |
| Legacy.LegacyOptionalSettings | src/systemd.rs:64-82 | in the template's line list, RootDirectory, WorkingDirectory and User appear exactly when set, at most once each, with the field value |
| Legacy.ExecStartForms | src/systemd.rs:40-54 | the command line is the executable alone for absent `args`, the executable and a trailing space for an empty list, and otherwise the executable and the arguments joined by single spaces |
| Legacy.ExecStartSplits | src/systemd.rs:40-54 | with no space inside the executable or any argument, the command line splits back into the executable and the arguments |
| Legacy.LegacyLayout | src/systemd.rs:30-98 | the template's line list has 12 fixed lines plus the optional and environment lines; `[Unit]` is line 1, `[Service]` line 3, and `[Install]` and `WantedBy=multi-user.target` are the last two |
| Legacy.FixedPartsHoldNoEnvironment | src/systemd.rs:30-86 | the blocks before the environment lines and the `[Install]` block set no `Environment` value |
| Legacy.TailEnvironment | src/systemd.rs:84-92 | the tail of `[Service]` sets one Environment value per pair, in list order |
| Legacy.LegacyTextLines | src/systemd.rs:30-98 | when the display name, the command line parts, the optional values and the environment pairs hold no line break, the written file read back line by line is exactly the template's line list |
| Legacy.LegacyFileSettings | src/systemd.rs:30-98 | under the same condition, the written file itself has 12 lines plus the optional and environment lines, starts with `[Unit]`, has `[Service]` third, ends with `[Install]` and `WantedBy=multi-user.target`, and holds one Description (the display name), one ExecStart (the command line), one Restart and one Environment per pair in order |
| Legacy.LegacyFileOptionalSettings | src/systemd.rs:64-84 | under the same condition, the written file holds `RestartSec=120` once, and RootDirectory, WorkingDirectory and User exactly when set, with the field value |
| Legacy.ReportedOutcome | src/systemd.rs:141-171 | with `map_err(...)?` and no exit-status check, a step ends the chain exactly when it raises an I/O error |
| Legacy.LegacyLines | src/systemd.rs:30-98 | the template's lines, block by block: `[Unit]`, the head of `[Service]`, the optional lines, the tail with the environment lines, `[Install]`; `LegacyLayout` and `TemplateValues` state their layout and settings |
| Legacy.LegacyText | src/systemd.rs:30-98 | the template's lines, each ended by a newline; `LegacyTextLines` and `LegacyFileSettings` state what the written file holds |
| Legacy.InstallPlan | src/systemd.rs:141-171 | the chain of the older `install` once the file is absent: create, write, chmod 0644, `enable <unit>`, `daemon-reload`, each reporting its own message and none checking an exit status; `InstallIgnoresExitStatus` states its outcome |
| Legacy.InstallRun | src/systemd.rs:133-174 | the older `install`: `Service file already exists` with no step when the file exists, otherwise the chain `InstallPlan`; `InstallRefusesExistingFile` and `InstallIgnoresExitStatus` state its outcome |
| Legacy.Install | src/systemd.rs:133-174 | the older `install` returns the result of its `InstallRun` for the template text, logs exactly its steps and applies their effects |
| Legacy.InstallFile | src/systemd.rs:133-174 | the same, for any file contents: the existence check followed by create, write, chmod 0644, enable, daemon-reload |
| Legacy.InstallRefusesExistingFile | src/systemd.rs:134-139 | with the unit file present, the older `install` returns "Service file already exists" and attempts no step |
| Legacy.InstallIgnoresExitStatus | src/systemd.rs:133-174 | the older `install` is Ok exactly when the file was absent and each of the five steps went through, whatever `enable` and `daemon-reload` exit with; the file then exists |
| Legacy.UninstallPlan | src/systemd.rs:176-190 | the chain of the older `uninstall`: `disable <unit>`, reported as a failure to stop, then the removal, whose I/O error becomes `Failed to remove service file`; `UninstallDisableUnspawned` and `UninstallAfterDisable` state its outcome |
| Legacy.Uninstall | src/systemd.rs:176-190 | the older `uninstall` returns the result of its chain (disable, remove the file), logs exactly the steps attempted and applies their effects |
| Legacy.UninstallIgnoresExitStatus | src/systemd.rs:176-190 | a failure to spawn `disable` is reported as "Failed to stop <unit>: ..." and the file stays; otherwise, whatever `disable` answered, the file is removed when the removal goes through |
| Legacy.UninstallDisableUnspawned | src/systemd.rs:176-190 | when `disable` cannot be spawned, `uninstall` takes no further step and reports "Failed to stop <unit>: " followed by the spawn error |
| Legacy.UninstallAfterDisable | src/systemd.rs:176-190 | once `disable` is spawned, `uninstall` removes the unit file next, and succeeds exactly when that removal does |
| Legacy.ControlPlan | src/systemd.rs:192-226 | the one command of the older `start`, `stop` or `restart`, reported as `Failed to <verb> <unit>: ` and its I/O error; `ControlIgnoresExitStatus` states its outcome |
| Legacy.Start | src/systemd.rs:192-202 | the older `start` runs `systemctl start <unit>`; the files do not change |
| Legacy.Stop | src/systemd.rs:204-214 | the older `stop` runs `systemctl stop <unit>`; the files do not change |
| Legacy.Restart | src/systemd.rs:216-226 | the older `restart` runs `systemctl restart <unit>`; the files do not change |
| Legacy.ControlIgnoresExitStatus | src/systemd.rs:192-226 | the older `start`, `stop` and `restart` run one command and are Ok exactly when it could be spawned, whatever it answered |
| Legacy.ControlKeepsFiles | src/systemd.rs:192-226 | the older `start`, `stop` and `restart` never touch the unit file |
| Legacy.StatusRun | src/systemd.rs:228-278 | what the older `status` queries and returns, for every answer of `systemctl`; `StatusOfUnspawned`, `StatusOfAnyAnswer`, `StatusIgnoresExitStatus` and `StatusNeverUnknown` state it |
| Legacy.ListingRun | src/systemd.rs:246-272 | the older listing query is Ok exactly when spawned and successful, with the status `StatusOfListing` of its stdout |
| Legacy.QueryStatus | src/systemd.rs:228-278 | the older `status` returns the result of its `StatusRun`, logs exactly its queries and changes no file; `StatusOfUnspawned`, `StatusOfAnyAnswer` and `StatusIgnoresExitStatus` state that result for every answer |
| Legacy.StatusOfUnspawned | src/systemd.rs:229-238 | when `is-active` cannot be spawned, the older `status` makes that one attempt and returns `Failed to get status of <unit>: ` followed by the I/O error |
| Legacy.StatusOfAnyAnswer | src/systemd.rs:240-277 | once `is-active` is spawned, whatever its exit status: for `inactive` the older `status` is `is-active` followed by the listing query and returns the listing's result; for any other state it makes no other query and returns the state's status |
| Legacy.StatusIgnoresExitStatus | src/systemd.rs:228-278 | two worlds that differ only in the exit status and stderr of `is-active` give the older `status` the same queries and the same result |
| Legacy.QueryListing | src/systemd.rs:246-272 | the older listing query returns the result of its `ListingRun`, logs exactly its one command and changes no file |
| Legacy.StatusNeverUnknown | src/systemd.rs:243-277 | the older `status` never returns Unknown and never touches the unit file |
| Legacy.StatusAgreesOnSuccess | src/systemd.rs:228-278 | when `is-active` exits successfully, the older and the newer `status` make the same queries and return the same status; only their error messages differ |
| Legacy.StatusOfInactiveExit | src/systemd.rs:241-272 | the older `status` ignores the exit status of `is-active`: an unsuccessful `inactive` answer still leads to the listing and to Stopped or NotInstalled, where the newer one returns a CommandError |

## Left out

- Legacy.LegacyLayout: stated of the template's line list. The older `fmt` writes values verbatim, so a value holding a line break adds lines to the written file. `Legacy.LegacyFileSettings` states the layout of the written file itself, for values without line breaks.
- Legacy.LegacyExecStart: stated of the template's line list, for the same reason; `Legacy.LegacyFileSettings` states it of the written file when no value holds a line break. The same holds for `Legacy.LegacyDescription`, `Legacy.LegacyRestart`, `Legacy.LegacyEnvironment` (covered by `Legacy.LegacyFileSettings`) and `Legacy.LegacyRestartSec`, `Legacy.LegacyOptionalSettings` (covered by `Legacy.LegacyFileOptionalSettings`).
- ServiceSection.ReloadSignalLast: stated of the section's option lines. A value holding a line break adds lines to the text; `ServiceSection.ReloadSignalLastInText` states it of the written section when no option line holds a line break.
- `is_available` (a `which` lookup on `PATH`) is not modelled: it depends on the environment only. The same goes for the trivial constructors `Systemd::new`, `Unit::new` and `Exec::new`. The last two are modelled as the constants `DefaultUnit` and `DefaultExec`, all of whose fields are absent.
- Process spawning and the file system are oracles. An I/O error is represented by its rendered text, and the `{:?}` (Debug) rendering of an `io::Error` in the older messages is that same text. Only the existence of the unit file is tracked. Written contents and the permission mode are recorded in the step log (the mode as the constant 0o644), not as file state.
- `{dst:?}` in the newer "already exists" message is modelled as the path between double quotes. Rust's escaping of special characters inside the quotes is not modelled.
- `String::from_utf8_lossy` and `String::from_utf8(...).unwrap()` are not modelled: `systemctl` output is taken as text. The older `status` panics on output that is not UTF-8; that panic is not modelled.
- `PathBuf::display()` is not modelled: paths are plain strings.
- `fmt::Error` propagation (`?` after `writeln!`, `.unwrap()` after `write_str` in the older template) is not modelled: writes to the buffer cannot fail. The `FmtError` variant exists, but nothing produces it.
- The `Display` impls of the `Error` enum in `src/error.rs` and of `ServiceError` in `src/service.rs` only prepend a fixed prefix. They are not modelled; errors are compared as values.
- `src/service.rs` is a set of declarations (the `Service` trait and `Status`). The older controller's methods are plain methods of `Legacy`, not trait implementations.
- `Exec` is not embedded in `Service`, following the code.
- Integer fields carry their Rust ranges as subset types (`u8`, `u32`, `u64`, `i32`). No arithmetic is performed on them, so there is no wrap-around to model.
- `Text.Trim`: whitespace is the Unicode White_Space set, written out as character ranges, which is what `char::is_whitespace` tests.
