/**
 * The [Unit] section of `src/systemd/unit.rs`: the closed vocabularies it
 * renders as tokens, the all-optional `Unit` record, its rendering in the
 * fixed field order, `Unit::validate`, and the builder setters.
 */
module UnitSection {
  import opened Wrappers
  import opened Primitives
  import opened Text
  import opened Macros
  import opened Checks

  // ---------------------------------------------------------------------------
  // Closed vocabularies and their tokens
  // ---------------------------------------------------------------------------

  /** Tokens are non-empty and made of lower-case letters, digits and hyphens. */
  predicate IsToken(s: string) {
    |s| > 0 && forall i :: 0 <= i < |s| ==> ('a' <= s[i] <= 'z' || '0' <= s[i] <= '9' || s[i] == '-')
  }

  datatype CollectMode =
    | Inactive
    | InactiveOrFailed

  function CollectModeToken(x: CollectMode): string {
    match x
    case Inactive => "inactive"
    case InactiveOrFailed => "inactive-or-failed"
  }

  /** Reads a token back; the inverse of `CollectModeToken`. */
  function ParseCollectMode(s: string): Option<CollectMode> {
    if s == "inactive" then Some(CollectMode.Inactive)
    else if s == "inactive-or-failed" then Some(CollectMode.InactiveOrFailed)
    else Option.None
  }

  lemma CollectModeTokenRoundTrip(x: CollectMode)
    ensures ParseCollectMode(CollectModeToken(x)) == Some(x)
    ensures IsToken(CollectModeToken(x))
  {
  }

  /** Distinct variants render to distinct tokens. */
  lemma CollectModeTokensDistinct(x: CollectMode, y: CollectMode)
    requires x != y
    ensures CollectModeToken(x) != CollectModeToken(y)
  {
    CollectModeTokenRoundTrip(x);
    CollectModeTokenRoundTrip(y);
  }

  datatype JobMode =
    | Fail
    | Replace
    | ReplaceIrreversibly
    | Isolate
    | Flush
    | IgnoreDependencies
    | IgnoreRequirements

  function JobModeToken(x: JobMode): string {
    match x
    case Fail => "fail"
    case Replace => "replace"
    case ReplaceIrreversibly => "replace-irreversibly"
    case Isolate => "isolate"
    case Flush => "flush"
    case IgnoreDependencies => "ignore-dependencies"
    case IgnoreRequirements => "ignore-requirements"
  }

  /** Reads a token back; the inverse of `JobModeToken`. */
  function ParseJobMode(s: string): Option<JobMode> {
    if s == "fail" then Some(JobMode.Fail)
    else if s == "replace" then Some(JobMode.Replace)
    else if s == "replace-irreversibly" then Some(JobMode.ReplaceIrreversibly)
    else if s == "isolate" then Some(JobMode.Isolate)
    else if s == "flush" then Some(JobMode.Flush)
    else if s == "ignore-dependencies" then Some(JobMode.IgnoreDependencies)
    else if s == "ignore-requirements" then Some(JobMode.IgnoreRequirements)
    else Option.None
  }

  lemma JobModeTokenRoundTripPart1(x: JobMode)
    requires x.Fail? || x.Replace?
    ensures ParseJobMode(JobModeToken(x)) == Some(x)
    ensures IsToken(JobModeToken(x))
  {
  }

  lemma JobModeTokenRoundTripPart2(x: JobMode)
    requires x.ReplaceIrreversibly? || x.Isolate?
    ensures ParseJobMode(JobModeToken(x)) == Some(x)
    ensures IsToken(JobModeToken(x))
  {
  }

  lemma JobModeTokenRoundTripPart3(x: JobMode)
    requires x.Flush? || x.IgnoreDependencies?
    ensures ParseJobMode(JobModeToken(x)) == Some(x)
    ensures IsToken(JobModeToken(x))
  {
  }

  lemma JobModeTokenRoundTripPart4(x: JobMode)
    requires x.IgnoreRequirements?
    ensures ParseJobMode(JobModeToken(x)) == Some(x)
    ensures IsToken(JobModeToken(x))
  {
  }

  lemma JobModeTokenRoundTrip(x: JobMode)
    ensures ParseJobMode(JobModeToken(x)) == Some(x)
    ensures IsToken(JobModeToken(x))
  {
    if x.Fail? || x.Replace? {
      JobModeTokenRoundTripPart1(x);
    } else if x.ReplaceIrreversibly? || x.Isolate? {
      JobModeTokenRoundTripPart2(x);
    } else if x.Flush? || x.IgnoreDependencies? {
      JobModeTokenRoundTripPart3(x);
    } else {
      JobModeTokenRoundTripPart4(x);
    }
  }

  /** Distinct variants render to distinct tokens. */
  lemma JobModeTokensDistinct(x: JobMode, y: JobMode)
    requires x != y
    ensures JobModeToken(x) != JobModeToken(y)
  {
    JobModeTokenRoundTrip(x);
    JobModeTokenRoundTrip(y);
  }

  datatype Action =
    | None
    | Reboot
    | RebootForce
    | RebootImmediate
    | Poweroff
    | PoweroffForce
    | PoweroffImmediate
    | Exit
    | ExitForce
    | SoftReboot
    | SoftRebootForce
    | Kexec
    | KexecForce
    | Halt
    | HaltForce
    | HaltImmediate

  function ActionToken(x: Action): string {
    match x
    case None => "none"
    case Reboot => "reboot"
    case RebootForce => "reboot-force"
    case RebootImmediate => "reboot-immediate"
    case Poweroff => "poweroff"
    case PoweroffForce => "poweroff-force"
    case PoweroffImmediate => "poweroff-immediate"
    case Exit => "exit"
    case ExitForce => "exit-force"
    case SoftReboot => "soft-reboot"
    case SoftRebootForce => "soft-reboot-force"
    case Kexec => "kexec"
    case KexecForce => "kexec-force"
    case Halt => "halt"
    case HaltForce => "halt-force"
    case HaltImmediate => "halt-immediate"
  }

  /** Reads a token back; the inverse of `ActionToken`. */
  function ParseAction(s: string): Option<Action> {
    if s == "none" then Some(Action.None)
    else if s == "reboot" then Some(Action.Reboot)
    else if s == "reboot-force" then Some(Action.RebootForce)
    else if s == "reboot-immediate" then Some(Action.RebootImmediate)
    else if s == "poweroff" then Some(Action.Poweroff)
    else if s == "poweroff-force" then Some(Action.PoweroffForce)
    else if s == "poweroff-immediate" then Some(Action.PoweroffImmediate)
    else if s == "exit" then Some(Action.Exit)
    else if s == "exit-force" then Some(Action.ExitForce)
    else if s == "soft-reboot" then Some(Action.SoftReboot)
    else if s == "soft-reboot-force" then Some(Action.SoftRebootForce)
    else if s == "kexec" then Some(Action.Kexec)
    else if s == "kexec-force" then Some(Action.KexecForce)
    else if s == "halt" then Some(Action.Halt)
    else if s == "halt-force" then Some(Action.HaltForce)
    else if s == "halt-immediate" then Some(Action.HaltImmediate)
    else Option.None
  }

  lemma ActionTokenRoundTripPart1(x: Action)
    requires x.None? || x.Reboot?
    ensures ParseAction(ActionToken(x)) == Some(x)
    ensures IsToken(ActionToken(x))
  {
  }

  lemma ActionTokenRoundTripPart2(x: Action)
    requires x.RebootForce? || x.RebootImmediate?
    ensures ParseAction(ActionToken(x)) == Some(x)
    ensures IsToken(ActionToken(x))
  {
  }

  lemma ActionTokenRoundTripPart3(x: Action)
    requires x.Poweroff? || x.PoweroffForce?
    ensures ParseAction(ActionToken(x)) == Some(x)
    ensures IsToken(ActionToken(x))
  {
  }

  lemma ActionTokenRoundTripPart4(x: Action)
    requires x.PoweroffImmediate? || x.Exit?
    ensures ParseAction(ActionToken(x)) == Some(x)
    ensures IsToken(ActionToken(x))
  {
  }

  lemma ActionTokenRoundTripPart5(x: Action)
    requires x.ExitForce? || x.SoftReboot?
    ensures ParseAction(ActionToken(x)) == Some(x)
    ensures IsToken(ActionToken(x))
  {
  }

  lemma ActionTokenRoundTripPart6(x: Action)
    requires x.SoftRebootForce? || x.Kexec?
    ensures ParseAction(ActionToken(x)) == Some(x)
    ensures IsToken(ActionToken(x))
  {
  }

  lemma ActionTokenRoundTripPart7(x: Action)
    requires x.KexecForce? || x.Halt?
    ensures ParseAction(ActionToken(x)) == Some(x)
    ensures IsToken(ActionToken(x))
  {
  }

  lemma ActionTokenRoundTripPart8(x: Action)
    requires x.HaltForce? || x.HaltImmediate?
    ensures ParseAction(ActionToken(x)) == Some(x)
    ensures IsToken(ActionToken(x))
  {
  }

  lemma ActionTokenRoundTrip(x: Action)
    ensures ParseAction(ActionToken(x)) == Some(x)
    ensures IsToken(ActionToken(x))
  {
    if x.None? || x.Reboot? {
      ActionTokenRoundTripPart1(x);
    } else if x.RebootForce? || x.RebootImmediate? {
      ActionTokenRoundTripPart2(x);
    } else if x.Poweroff? || x.PoweroffForce? {
      ActionTokenRoundTripPart3(x);
    } else if x.PoweroffImmediate? || x.Exit? {
      ActionTokenRoundTripPart4(x);
    } else if x.ExitForce? || x.SoftReboot? {
      ActionTokenRoundTripPart5(x);
    } else if x.SoftRebootForce? || x.Kexec? {
      ActionTokenRoundTripPart6(x);
    } else if x.KexecForce? || x.Halt? {
      ActionTokenRoundTripPart7(x);
    } else {
      ActionTokenRoundTripPart8(x);
    }
  }

  /** Distinct variants render to distinct tokens. */
  lemma ActionTokensDistinct(x: Action, y: Action)
    requires x != y
    ensures ActionToken(x) != ActionToken(y)
  {
    ActionTokenRoundTrip(x);
    ActionTokenRoundTrip(y);
  }

  datatype SecurityTech =
    | Selinux
    | Apparmor
    | Tomoyo
    | Smack
    | Ima
    | Audit
    | UefiSecureboot
    | Tpm2
    | Cvm
    | MeasuredUki

  function SecurityTechToken(x: SecurityTech): string {
    match x
    case Selinux => "selinux"
    case Apparmor => "apparmor"
    case Tomoyo => "tomoyo"
    case Smack => "smack"
    case Ima => "ima"
    case Audit => "audit"
    case UefiSecureboot => "uefi-secureboot"
    case Tpm2 => "tpm2"
    case Cvm => "cvm"
    case MeasuredUki => "measured-uki"
  }

  /** Reads a token back; the inverse of `SecurityTechToken`. */
  function ParseSecurityTech(s: string): Option<SecurityTech> {
    if s == "selinux" then Some(SecurityTech.Selinux)
    else if s == "apparmor" then Some(SecurityTech.Apparmor)
    else if s == "tomoyo" then Some(SecurityTech.Tomoyo)
    else if s == "smack" then Some(SecurityTech.Smack)
    else if s == "ima" then Some(SecurityTech.Ima)
    else if s == "audit" then Some(SecurityTech.Audit)
    else if s == "uefi-secureboot" then Some(SecurityTech.UefiSecureboot)
    else if s == "tpm2" then Some(SecurityTech.Tpm2)
    else if s == "cvm" then Some(SecurityTech.Cvm)
    else if s == "measured-uki" then Some(SecurityTech.MeasuredUki)
    else Option.None
  }

  lemma SecurityTechTokenRoundTripPart1(x: SecurityTech)
    requires x.Selinux? || x.Apparmor? || x.Tomoyo? || x.Smack?
    ensures ParseSecurityTech(SecurityTechToken(x)) == Some(x)
    ensures IsToken(SecurityTechToken(x))
  {
  }

  lemma SecurityTechTokenRoundTripPart2(x: SecurityTech)
    requires x.Ima? || x.Audit? || x.UefiSecureboot? || x.Tpm2?
    ensures ParseSecurityTech(SecurityTechToken(x)) == Some(x)
    ensures IsToken(SecurityTechToken(x))
  {
  }

  lemma SecurityTechTokenRoundTripPart3(x: SecurityTech)
    requires x.Cvm? || x.MeasuredUki?
    ensures ParseSecurityTech(SecurityTechToken(x)) == Some(x)
    ensures IsToken(SecurityTechToken(x))
  {
  }

  lemma SecurityTechTokenRoundTrip(x: SecurityTech)
    ensures ParseSecurityTech(SecurityTechToken(x)) == Some(x)
    ensures IsToken(SecurityTechToken(x))
  {
    if x.Selinux? || x.Apparmor? || x.Tomoyo? || x.Smack? {
      SecurityTechTokenRoundTripPart1(x);
    } else if x.Ima? || x.Audit? || x.UefiSecureboot? || x.Tpm2? {
      SecurityTechTokenRoundTripPart2(x);
    } else {
      SecurityTechTokenRoundTripPart3(x);
    }
  }

  /** Distinct variants render to distinct tokens. */
  lemma SecurityTechTokensDistinct(x: SecurityTech, y: SecurityTech)
    requires x != y
    ensures SecurityTechToken(x) != SecurityTechToken(y)
  {
    SecurityTechTokenRoundTrip(x);
    SecurityTechTokenRoundTrip(y);
  }

  datatype Architecture =
    | X86
    | X8664
    | Ppc
    | PpcLe
    | Ppc64
    | Ppc64Le
    | Ia64
    | Parisc
    | Parisc64
    | S390
    | S390x
    | Sparc
    | Sparc64
    | Mips
    | MipsLe
    | Mips64
    | Mips64Le
    | Alpha
    | Arm
    | ArmBe
    | Arm64
    | Arm64Be
    | Sh
    | Sh64
    | M68k
    | Tilegx
    | Cris
    | Arc
    | ArcBe
    | Native

  function ArchitectureToken(x: Architecture): string {
    match x
    case X86 => "x86"
    case X8664 => "x86-64"
    case Ppc => "ppc"
    case PpcLe => "ppc-le"
    case Ppc64 => "ppc64"
    case Ppc64Le => "ppc64-le"
    case Ia64 => "ia64"
    case Parisc => "parisc"
    case Parisc64 => "parisc64"
    case S390 => "s390"
    case S390x => "s390x"
    case Sparc => "sparc"
    case Sparc64 => "sparc64"
    case Mips => "mips"
    case MipsLe => "mips-le"
    case Mips64 => "mips64"
    case Mips64Le => "mips64-le"
    case Alpha => "alpha"
    case Arm => "arm"
    case ArmBe => "arm-be"
    case Arm64 => "arm64"
    case Arm64Be => "arm64-be"
    case Sh => "sh"
    case Sh64 => "sh64"
    case M68k => "m68k"
    case Tilegx => "tilegx"
    case Cris => "cris"
    case Arc => "arc"
    case ArcBe => "arc-be"
    case Native => "native"
  }

  /** Reads a token back; the inverse of `ArchitectureToken`. */
  function ParseArchitecture(s: string): Option<Architecture> {
    if s == "x86" then Some(Architecture.X86)
    else if s == "x86-64" then Some(Architecture.X8664)
    else if s == "ppc" then Some(Architecture.Ppc)
    else if s == "ppc-le" then Some(Architecture.PpcLe)
    else if s == "ppc64" then Some(Architecture.Ppc64)
    else if s == "ppc64-le" then Some(Architecture.Ppc64Le)
    else if s == "ia64" then Some(Architecture.Ia64)
    else if s == "parisc" then Some(Architecture.Parisc)
    else if s == "parisc64" then Some(Architecture.Parisc64)
    else if s == "s390" then Some(Architecture.S390)
    else if s == "s390x" then Some(Architecture.S390x)
    else if s == "sparc" then Some(Architecture.Sparc)
    else if s == "sparc64" then Some(Architecture.Sparc64)
    else if s == "mips" then Some(Architecture.Mips)
    else if s == "mips-le" then Some(Architecture.MipsLe)
    else if s == "mips64" then Some(Architecture.Mips64)
    else if s == "mips64-le" then Some(Architecture.Mips64Le)
    else if s == "alpha" then Some(Architecture.Alpha)
    else if s == "arm" then Some(Architecture.Arm)
    else if s == "arm-be" then Some(Architecture.ArmBe)
    else if s == "arm64" then Some(Architecture.Arm64)
    else if s == "arm64-be" then Some(Architecture.Arm64Be)
    else if s == "sh" then Some(Architecture.Sh)
    else if s == "sh64" then Some(Architecture.Sh64)
    else if s == "m68k" then Some(Architecture.M68k)
    else if s == "tilegx" then Some(Architecture.Tilegx)
    else if s == "cris" then Some(Architecture.Cris)
    else if s == "arc" then Some(Architecture.Arc)
    else if s == "arc-be" then Some(Architecture.ArcBe)
    else if s == "native" then Some(Architecture.Native)
    else Option.None
  }

  lemma ArchitectureTokenRoundTripPart1(x: Architecture)
    requires x.X86? || x.X8664?
    ensures ParseArchitecture(ArchitectureToken(x)) == Some(x)
    ensures IsToken(ArchitectureToken(x))
  {
  }

  lemma ArchitectureTokenRoundTripPart2(x: Architecture)
    requires x.Ppc? || x.PpcLe?
    ensures ParseArchitecture(ArchitectureToken(x)) == Some(x)
    ensures IsToken(ArchitectureToken(x))
  {
  }

  lemma ArchitectureTokenRoundTripPart3(x: Architecture)
    requires x.Ppc64? || x.Ppc64Le?
    ensures ParseArchitecture(ArchitectureToken(x)) == Some(x)
    ensures IsToken(ArchitectureToken(x))
  {
  }

  lemma ArchitectureTokenRoundTripPart4(x: Architecture)
    requires x.Ia64? || x.Parisc?
    ensures ParseArchitecture(ArchitectureToken(x)) == Some(x)
    ensures IsToken(ArchitectureToken(x))
  {
  }

  lemma ArchitectureTokenRoundTripPart5(x: Architecture)
    requires x.Parisc64? || x.S390?
    ensures ParseArchitecture(ArchitectureToken(x)) == Some(x)
    ensures IsToken(ArchitectureToken(x))
  {
  }

  lemma ArchitectureTokenRoundTripPart6(x: Architecture)
    requires x.S390x? || x.Sparc?
    ensures ParseArchitecture(ArchitectureToken(x)) == Some(x)
    ensures IsToken(ArchitectureToken(x))
  {
  }

  lemma ArchitectureTokenRoundTripPart7(x: Architecture)
    requires x.Sparc64? || x.Mips?
    ensures ParseArchitecture(ArchitectureToken(x)) == Some(x)
    ensures IsToken(ArchitectureToken(x))
  {
  }

  lemma ArchitectureTokenRoundTripPart8(x: Architecture)
    requires x.MipsLe? || x.Mips64?
    ensures ParseArchitecture(ArchitectureToken(x)) == Some(x)
    ensures IsToken(ArchitectureToken(x))
  {
  }

  lemma ArchitectureTokenRoundTripPart9(x: Architecture)
    requires x.Mips64Le? || x.Alpha?
    ensures ParseArchitecture(ArchitectureToken(x)) == Some(x)
    ensures IsToken(ArchitectureToken(x))
  {
  }

  lemma ArchitectureTokenRoundTripPart10(x: Architecture)
    requires x.Arm? || x.ArmBe?
    ensures ParseArchitecture(ArchitectureToken(x)) == Some(x)
    ensures IsToken(ArchitectureToken(x))
  {
  }

  lemma ArchitectureTokenRoundTripPart11(x: Architecture)
    requires x.Arm64? || x.Arm64Be?
    ensures ParseArchitecture(ArchitectureToken(x)) == Some(x)
    ensures IsToken(ArchitectureToken(x))
  {
  }

  lemma ArchitectureTokenRoundTripPart12(x: Architecture)
    requires x.Sh? || x.Sh64?
    ensures ParseArchitecture(ArchitectureToken(x)) == Some(x)
    ensures IsToken(ArchitectureToken(x))
  {
  }

  lemma ArchitectureTokenRoundTripPart13(x: Architecture)
    requires x.M68k? || x.Tilegx?
    ensures ParseArchitecture(ArchitectureToken(x)) == Some(x)
    ensures IsToken(ArchitectureToken(x))
  {
  }

  lemma ArchitectureTokenRoundTripPart14(x: Architecture)
    requires x.Cris? || x.Arc?
    ensures ParseArchitecture(ArchitectureToken(x)) == Some(x)
    ensures IsToken(ArchitectureToken(x))
  {
  }

  lemma ArchitectureTokenRoundTripPart15(x: Architecture)
    requires x.ArcBe? || x.Native?
    ensures ParseArchitecture(ArchitectureToken(x)) == Some(x)
    ensures IsToken(ArchitectureToken(x))
  {
  }

  lemma ArchitectureTokenRoundTrip(x: Architecture)
    ensures ParseArchitecture(ArchitectureToken(x)) == Some(x)
    ensures IsToken(ArchitectureToken(x))
  {
    if x.X86? || x.X8664? {
      ArchitectureTokenRoundTripPart1(x);
    } else if x.Ppc? || x.PpcLe? {
      ArchitectureTokenRoundTripPart2(x);
    } else if x.Ppc64? || x.Ppc64Le? {
      ArchitectureTokenRoundTripPart3(x);
    } else if x.Ia64? || x.Parisc? {
      ArchitectureTokenRoundTripPart4(x);
    } else if x.Parisc64? || x.S390? {
      ArchitectureTokenRoundTripPart5(x);
    } else if x.S390x? || x.Sparc? {
      ArchitectureTokenRoundTripPart6(x);
    } else if x.Sparc64? || x.Mips? {
      ArchitectureTokenRoundTripPart7(x);
    } else if x.MipsLe? || x.Mips64? {
      ArchitectureTokenRoundTripPart8(x);
    } else if x.Mips64Le? || x.Alpha? {
      ArchitectureTokenRoundTripPart9(x);
    } else if x.Arm? || x.ArmBe? {
      ArchitectureTokenRoundTripPart10(x);
    } else if x.Arm64? || x.Arm64Be? {
      ArchitectureTokenRoundTripPart11(x);
    } else if x.Sh? || x.Sh64? {
      ArchitectureTokenRoundTripPart12(x);
    } else if x.M68k? || x.Tilegx? {
      ArchitectureTokenRoundTripPart13(x);
    } else if x.Cris? || x.Arc? {
      ArchitectureTokenRoundTripPart14(x);
    } else {
      ArchitectureTokenRoundTripPart15(x);
    }
  }

  /** Distinct variants render to distinct tokens. */
  lemma ArchitectureTokensDistinct(x: Architecture, y: Architecture)
    requires x != y
    ensures ArchitectureToken(x) != ArchitectureToken(y)
  {
    ArchitectureTokenRoundTrip(x);
    ArchitectureTokenRoundTrip(y);
  }

  datatype Virtualization =
    | Vm
    | Container
    | Qemu
    | Kvm
    | Amazon
    | Zvm
    | Vmware
    | Microsoft
    | Oracle
    | Powervm
    | Xen
    | Bochs
    | Uml
    | Bhyve
    | Qnx
    | Apple
    | Sre
    | Openvz
    | Lxc
    | LxcLibvirt
    | SystemdNspawn
    | Docker
    | Podman
    | Rkt
    | Wsl
    | Proot
    | Pouch
    | Acrn
    | PrivateUsers

  function VirtualizationToken(x: Virtualization): string {
    match x
    case Vm => "vm"
    case Container => "container"
    case Qemu => "qemu"
    case Kvm => "kvm"
    case Amazon => "amazon"
    case Zvm => "zvm"
    case Vmware => "vmware"
    case Microsoft => "microsoft"
    case Oracle => "oracle"
    case Powervm => "powervm"
    case Xen => "xen"
    case Bochs => "bochs"
    case Uml => "uml"
    case Bhyve => "bhyve"
    case Qnx => "qnx"
    case Apple => "apple"
    case Sre => "sre"
    case Openvz => "openvz"
    case Lxc => "lxc"
    case LxcLibvirt => "lxc-libvirt"
    case SystemdNspawn => "systemd-nspawn"
    case Docker => "docker"
    case Podman => "podman"
    case Rkt => "rkt"
    case Wsl => "wsl"
    case Proot => "proot"
    case Pouch => "pouch"
    case Acrn => "acrn"
    case PrivateUsers => "private-users"
  }

  /** Reads a token back; the inverse of `VirtualizationToken`. */
  function ParseVirtualization(s: string): Option<Virtualization> {
    if s == "vm" then Some(Virtualization.Vm)
    else if s == "container" then Some(Virtualization.Container)
    else if s == "qemu" then Some(Virtualization.Qemu)
    else if s == "kvm" then Some(Virtualization.Kvm)
    else if s == "amazon" then Some(Virtualization.Amazon)
    else if s == "zvm" then Some(Virtualization.Zvm)
    else if s == "vmware" then Some(Virtualization.Vmware)
    else if s == "microsoft" then Some(Virtualization.Microsoft)
    else if s == "oracle" then Some(Virtualization.Oracle)
    else if s == "powervm" then Some(Virtualization.Powervm)
    else if s == "xen" then Some(Virtualization.Xen)
    else if s == "bochs" then Some(Virtualization.Bochs)
    else if s == "uml" then Some(Virtualization.Uml)
    else if s == "bhyve" then Some(Virtualization.Bhyve)
    else if s == "qnx" then Some(Virtualization.Qnx)
    else if s == "apple" then Some(Virtualization.Apple)
    else if s == "sre" then Some(Virtualization.Sre)
    else if s == "openvz" then Some(Virtualization.Openvz)
    else if s == "lxc" then Some(Virtualization.Lxc)
    else if s == "lxc-libvirt" then Some(Virtualization.LxcLibvirt)
    else if s == "systemd-nspawn" then Some(Virtualization.SystemdNspawn)
    else if s == "docker" then Some(Virtualization.Docker)
    else if s == "podman" then Some(Virtualization.Podman)
    else if s == "rkt" then Some(Virtualization.Rkt)
    else if s == "wsl" then Some(Virtualization.Wsl)
    else if s == "proot" then Some(Virtualization.Proot)
    else if s == "pouch" then Some(Virtualization.Pouch)
    else if s == "acrn" then Some(Virtualization.Acrn)
    else if s == "private-users" then Some(Virtualization.PrivateUsers)
    else Option.None
  }

  lemma VirtualizationTokenRoundTripPart1(x: Virtualization)
    requires x.Vm? || x.Container?
    ensures ParseVirtualization(VirtualizationToken(x)) == Some(x)
    ensures IsToken(VirtualizationToken(x))
  {
  }

  lemma VirtualizationTokenRoundTripPart2(x: Virtualization)
    requires x.Qemu? || x.Kvm?
    ensures ParseVirtualization(VirtualizationToken(x)) == Some(x)
    ensures IsToken(VirtualizationToken(x))
  {
  }

  lemma VirtualizationTokenRoundTripPart3(x: Virtualization)
    requires x.Amazon? || x.Zvm?
    ensures ParseVirtualization(VirtualizationToken(x)) == Some(x)
    ensures IsToken(VirtualizationToken(x))
  {
  }

  lemma VirtualizationTokenRoundTripPart4(x: Virtualization)
    requires x.Vmware? || x.Microsoft?
    ensures ParseVirtualization(VirtualizationToken(x)) == Some(x)
    ensures IsToken(VirtualizationToken(x))
  {
  }

  lemma VirtualizationTokenRoundTripPart5(x: Virtualization)
    requires x.Oracle? || x.Powervm?
    ensures ParseVirtualization(VirtualizationToken(x)) == Some(x)
    ensures IsToken(VirtualizationToken(x))
  {
  }

  lemma VirtualizationTokenRoundTripPart6(x: Virtualization)
    requires x.Xen? || x.Bochs?
    ensures ParseVirtualization(VirtualizationToken(x)) == Some(x)
    ensures IsToken(VirtualizationToken(x))
  {
  }

  lemma VirtualizationTokenRoundTripPart7(x: Virtualization)
    requires x.Uml? || x.Bhyve?
    ensures ParseVirtualization(VirtualizationToken(x)) == Some(x)
    ensures IsToken(VirtualizationToken(x))
  {
  }

  lemma VirtualizationTokenRoundTripPart8(x: Virtualization)
    requires x.Qnx? || x.Apple?
    ensures ParseVirtualization(VirtualizationToken(x)) == Some(x)
    ensures IsToken(VirtualizationToken(x))
  {
  }

  lemma VirtualizationTokenRoundTripPart9(x: Virtualization)
    requires x.Sre? || x.Openvz?
    ensures ParseVirtualization(VirtualizationToken(x)) == Some(x)
    ensures IsToken(VirtualizationToken(x))
  {
  }

  lemma VirtualizationTokenRoundTripPart10(x: Virtualization)
    requires x.Lxc? || x.LxcLibvirt?
    ensures ParseVirtualization(VirtualizationToken(x)) == Some(x)
    ensures IsToken(VirtualizationToken(x))
  {
  }

  lemma VirtualizationTokenRoundTripPart11(x: Virtualization)
    requires x.SystemdNspawn? || x.Docker?
    ensures ParseVirtualization(VirtualizationToken(x)) == Some(x)
    ensures IsToken(VirtualizationToken(x))
  {
  }

  lemma VirtualizationTokenRoundTripPart12(x: Virtualization)
    requires x.Podman? || x.Rkt?
    ensures ParseVirtualization(VirtualizationToken(x)) == Some(x)
    ensures IsToken(VirtualizationToken(x))
  {
  }

  lemma VirtualizationTokenRoundTripPart13(x: Virtualization)
    requires x.Wsl? || x.Proot?
    ensures ParseVirtualization(VirtualizationToken(x)) == Some(x)
    ensures IsToken(VirtualizationToken(x))
  {
  }

  lemma VirtualizationTokenRoundTripPart14(x: Virtualization)
    requires x.Pouch? || x.Acrn?
    ensures ParseVirtualization(VirtualizationToken(x)) == Some(x)
    ensures IsToken(VirtualizationToken(x))
  {
  }

  lemma VirtualizationTokenRoundTripPart15(x: Virtualization)
    requires x.PrivateUsers?
    ensures ParseVirtualization(VirtualizationToken(x)) == Some(x)
    ensures IsToken(VirtualizationToken(x))
  {
  }

  lemma VirtualizationTokenRoundTrip(x: Virtualization)
    ensures ParseVirtualization(VirtualizationToken(x)) == Some(x)
    ensures IsToken(VirtualizationToken(x))
  {
    if x.Vm? || x.Container? {
      VirtualizationTokenRoundTripPart1(x);
    } else if x.Qemu? || x.Kvm? {
      VirtualizationTokenRoundTripPart2(x);
    } else if x.Amazon? || x.Zvm? {
      VirtualizationTokenRoundTripPart3(x);
    } else if x.Vmware? || x.Microsoft? {
      VirtualizationTokenRoundTripPart4(x);
    } else if x.Oracle? || x.Powervm? {
      VirtualizationTokenRoundTripPart5(x);
    } else if x.Xen? || x.Bochs? {
      VirtualizationTokenRoundTripPart6(x);
    } else if x.Uml? || x.Bhyve? {
      VirtualizationTokenRoundTripPart7(x);
    } else if x.Qnx? || x.Apple? {
      VirtualizationTokenRoundTripPart8(x);
    } else if x.Sre? || x.Openvz? {
      VirtualizationTokenRoundTripPart9(x);
    } else if x.Lxc? || x.LxcLibvirt? {
      VirtualizationTokenRoundTripPart10(x);
    } else if x.SystemdNspawn? || x.Docker? {
      VirtualizationTokenRoundTripPart11(x);
    } else if x.Podman? || x.Rkt? {
      VirtualizationTokenRoundTripPart12(x);
    } else if x.Wsl? || x.Proot? {
      VirtualizationTokenRoundTripPart13(x);
    } else if x.Pouch? || x.Acrn? {
      VirtualizationTokenRoundTripPart14(x);
    } else {
      VirtualizationTokenRoundTripPart15(x);
    }
  }

  /** Distinct variants render to distinct tokens. */
  lemma VirtualizationTokensDistinct(x: Virtualization, y: Virtualization)
    requires x != y
    ensures VirtualizationToken(x) != VirtualizationToken(y)
  {
    VirtualizationTokenRoundTrip(x);
    VirtualizationTokenRoundTrip(y);
  }

  // ---------------------------------------------------------------------------
  // The record
  // ---------------------------------------------------------------------------

  /** Every option of the [Unit] section; `None` means the line is omitted. */
  datatype Unit = Unit(
    description: Option<string>,
    documentation: Option<seq<string>>,
    wants: Option<seq<string>>,
    requiresUnits: Option<seq<string>>,
    requisite: Option<seq<string>>,
    bindsTo: Option<seq<string>>,
    partOf: Option<seq<string>>,
    upholds: Option<seq<string>>,
    conflicts: Option<seq<string>>,
    before: Option<seq<string>>,
    after: Option<seq<string>>,
    onFailure: Option<seq<string>>,
    onSuccess: Option<seq<string>>,
    propagatesReloadTo: Option<seq<string>>,
    reloadPropagatedFrom: Option<seq<string>>,
    propagatesStopTo: Option<seq<string>>,
    stopPropagatedFrom: Option<seq<string>>,
    joinsNamespaceOf: Option<seq<string>>,
    requiresMountsFor: Option<seq<string>>,
    wantsMountsFor: Option<seq<string>>,
    onSuccessJobMode: Option<JobMode>,
    onFailureJobMode: Option<JobMode>,
    ignoreOnIsolate: Option<bool>,
    stopWhenUnneeded: Option<bool>,
    refuseManualStart: Option<bool>,
    refuseManualStop: Option<bool>,
    allowIsolate: Option<bool>,
    defaultDependencies: Option<bool>,
    surviveFinalKillSignal: Option<bool>,
    collectMode: Option<CollectMode>,
    failureAction: Option<Action>,
    successAction: Option<Action>,
    failureActionExitStatus: Option<u8>,
    successActionExitStatus: Option<u8>,
    jobTimeoutSec: Option<u64>,
    jobRunningTimeoutSec: Option<u64>,
    jobTimeoutAction: Option<Action>,
    jobTimeoutRebootArgument: Option<string>,
    startLimitIntervalSec: Option<u64>,
    startLimitBurst: Option<u32>,
    startLimitAction: Option<Action>,
    rebootArgument: Option<string>,
    sourcePath: Option<Path>,
    conditionArchitecture: Option<Architecture>,
    conditionFirmware: Option<string>,
    conditionVirtualization: Option<Virtualization>,
    conditionHost: Option<string>,
    conditionKernelCommandLine: Option<string>,
    conditionKernelVersion: Option<string>,
    conditionCredential: Option<string>,
    conditionEnvironment: Option<string>,
    conditionSecurity: Option<seq<SecurityTech>>,
    conditionCapability: Option<seq<string>>,
    conditionAcPower: Option<bool>,
    conditionNeedsUpdate: Option<string>,
    conditionFirstBoot: Option<bool>,
    conditionPathExists: Option<string>,
    conditionPathExistsGlob: Option<string>,
    conditionPathIsDirectory: Option<string>,
    conditionPathIsSymbolicLink: Option<string>,
    conditionPathIsMountPoint: Option<string>,
    conditionPathIsReadWrite: Option<string>,
    conditionPathIsEncrypted: Option<string>,
    conditionDirectoryNotEmpty: Option<string>,
    conditionFileNotEmpty: Option<string>,
    conditionFileIsExecutable: Option<string>,
    conditionUser: Option<string>,
    conditionGroup: Option<string>,
    conditionControlGroupController: Option<seq<string>>,
    conditionMemory: Option<string>,
    conditionCpus: Option<string>,
    conditionCpuFeature: Option<seq<string>>,
    conditionOsRelease: Option<string>,
    conditionMemoryPressure: Option<string>,
    conditionCpuPressure: Option<string>,
    conditionIoPressure: Option<string>,
    assertArchitecture: Option<Architecture>,
    assertFirmware: Option<string>,
    assertVirtualization: Option<Virtualization>,
    assertHost: Option<string>,
    assertKernelCommandLine: Option<string>,
    assertKernelVersion: Option<string>,
    assertCredential: Option<string>,
    assertEnvironment: Option<string>,
    assertSecurity: Option<seq<SecurityTech>>,
    assertCapability: Option<seq<string>>,
    assertAcPower: Option<bool>,
    assertNeedsUpdate: Option<string>,
    assertFirstBoot: Option<bool>,
    assertPathExists: Option<string>,
    assertPathExistsGlob: Option<string>,
    assertPathIsDirectory: Option<string>,
    assertPathIsSymbolicLink: Option<string>,
    assertPathIsMountPoint: Option<string>,
    assertPathIsReadWrite: Option<string>,
    assertPathIsEncrypted: Option<string>,
    assertDirectoryNotEmpty: Option<string>,
    assertFileNotEmpty: Option<string>,
    assertFileIsExecutable: Option<string>,
    assertUser: Option<string>,
    assertGroup: Option<string>,
    assertControlGroupController: Option<seq<string>>,
    assertMemory: Option<string>,
    assertCpus: Option<string>,
    assertCpuFeature: Option<seq<string>>,
    assertOsRelease: Option<string>,
    assertMemoryPressure: Option<string>,
    assertCpuPressure: Option<string>,
    assertIoPressure: Option<string>
  )

  /** `Unit::new()` / `Default`: every field absent. */
  const DefaultUnit: Unit := Unit(Option.None, Option.None, Option.None, Option.None, Option.None, Option.None, Option.None, Option.None, Option.None, Option.None, Option.None, Option.None, Option.None, Option.None, Option.None, Option.None, Option.None, Option.None, Option.None, Option.None, Option.None, Option.None, Option.None, Option.None, Option.None, Option.None, Option.None, Option.None, Option.None, Option.None, Option.None, Option.None, Option.None, Option.None, Option.None, Option.None, Option.None, Option.None, Option.None, Option.None, Option.None, Option.None, Option.None, Option.None, Option.None, Option.None, Option.None, Option.None, Option.None, Option.None, Option.None, Option.None, Option.None, Option.None, Option.None, Option.None, Option.None, Option.None, Option.None, Option.None, Option.None, Option.None, Option.None, Option.None, Option.None, Option.None, Option.None, Option.None, Option.None, Option.None, Option.None, Option.None, Option.None, Option.None, Option.None, Option.None, Option.None, Option.None, Option.None, Option.None, Option.None, Option.None, Option.None, Option.None, Option.None, Option.None, Option.None, Option.None, Option.None, Option.None, Option.None, Option.None, Option.None, Option.None, Option.None, Option.None, Option.None, Option.None, Option.None, Option.None, Option.None, Option.None, Option.None, Option.None, Option.None, Option.None, Option.None, Option.None, Option.None)

  // ---------------------------------------------------------------------------
  // Rendering
  // ---------------------------------------------------------------------------

  /**
   * The formatter invocations of `Display for Unit`, in source order: each entry
   * is the key written, the formatter used and the field it reads.
   */
  function UnitFields(u: Unit): seq<Field> {
    SettingFields(u) + ConditionFields(u) + AssertFields(u)
  }

  /** The groups before the checks: metadata through `SourcePath`. */
  function SettingFields(u: Unit): seq<Field> {
    MetadataFields(u) + DependencyFields(u) + OrderingFields(u) + LifecycleFields(u)
    + NamespaceFields(u) + JobModeFields(u) + BehaviorFields(u) + ActionFields(u) + TimeoutFields(u)
    + RateLimitFields(u) + SourcePathFields(u)
  }

  /** Basic metadata. */
  function MetadataFields(u: Unit): seq<Field> {
    [
      Scalar("Description", u.description),
      Joined("Documentation", u.documentation)
    ]
  }

  /** Dependencies. */
  function DependencyFields(u: Unit): seq<Field> {
    [
      Joined("Wants", u.wants),
      Joined("Requires", u.requiresUnits),
      Joined("Requisite", u.requisite),
      Joined("BindsTo", u.bindsTo),
      Joined("PartOf", u.partOf),
      Joined("Upholds", u.upholds),
      Joined("Conflicts", u.conflicts)
    ]
  }

  /** Ordering. */
  function OrderingFields(u: Unit): seq<Field> {
    [
      Joined("Before", u.before),
      Joined("After", u.after)
    ]
  }

  /** Lifecycle actions. */
  function LifecycleFields(u: Unit): seq<Field> {
    [
      Joined("OnFailure", u.onFailure),
      Joined("OnSuccess", u.onSuccess),
      Joined("PropagatesReloadTo", u.propagatesReloadTo),
      Joined("ReloadPropagatedFrom", u.reloadPropagatedFrom),
      Joined("PropagatesStopTo", u.propagatesStopTo),
      Joined("StopPropagatedFrom", u.stopPropagatedFrom)
    ]
  }

  /** Namespace & mounts. */
  function NamespaceFields(u: Unit): seq<Field> {
    [
      Joined("JoinsNamespaceOf", u.joinsNamespaceOf),
      Joined("RequiresMountsFor", u.requiresMountsFor),
      Joined("WantsMountsFor", u.wantsMountsFor)
    ]
  }

  /** Job modes. */
  function JobModeFields(u: Unit): seq<Field> {
    [
      Scalar("OnSuccessJobMode", Lift(u.onSuccessJobMode, JobModeToken)),
      Scalar("OnFailureJobMode", Lift(u.onFailureJobMode, JobModeToken))
    ]
  }

  /** Behavioral flags. */
  function BehaviorFields(u: Unit): seq<Field> {
    [
      Flag("IgnoreOnIsolate", u.ignoreOnIsolate),
      Flag("StopWhenUnneeded", u.stopWhenUnneeded),
      Flag("RefuseManualStart", u.refuseManualStart),
      Flag("RefuseManualStop", u.refuseManualStop),
      Flag("AllowIsolate", u.allowIsolate),
      Flag("DefaultDependencies", u.defaultDependencies),
      Flag("SurviveFinalKillSignal", u.surviveFinalKillSignal)
    ]
  }

  /** Actions & modes. */
  function ActionFields(u: Unit): seq<Field> {
    [
      Scalar("CollectMode", Lift(u.collectMode, CollectModeToken)),
      Scalar("FailureAction", Lift(u.failureAction, ActionToken)),
      Scalar("SuccessAction", Lift(u.successAction, ActionToken)),
      Scalar("FailureActionExitStatus", Number(u.failureActionExitStatus)),
      Scalar("SuccessActionExitStatus", Number(u.successActionExitStatus))
    ]
  }

  /** Timeouts. */
  function TimeoutFields(u: Unit): seq<Field> {
    [
      Scalar("JobTimeoutSec", Number(u.jobTimeoutSec)),
      Scalar("JobRunningTimeoutSec", Number(u.jobRunningTimeoutSec)),
      Scalar("JobTimeoutAction", Lift(u.jobTimeoutAction, ActionToken)),
      Scalar("JobTimeoutRebootArgument", u.jobTimeoutRebootArgument)
    ]
  }

  /** Start rate limiting. */
  function RateLimitFields(u: Unit): seq<Field> {
    [
      Scalar("StartLimitIntervalSec", Number(u.startLimitIntervalSec)),
      Scalar("StartLimitBurst", Number(u.startLimitBurst)),
      Scalar("StartLimitAction", Lift(u.startLimitAction, ActionToken)),
      Scalar("RebootArgument", u.rebootArgument)
    ]
  }

  /** Source path. */
  function SourcePathFields(u: Unit): seq<Field> {
    [
      Scalar("SourcePath", u.sourcePath)
    ]
  }

  /** Condition checks: every key is `Condition` followed by the name of the check. */
  function ConditionFields(u: Unit): seq<Field> {
    [
      Scalar("Condition" + "Architecture", Lift(u.conditionArchitecture, ArchitectureToken)),
      Scalar("Condition" + "Firmware", u.conditionFirmware),
      Scalar("Condition" + "Virtualization", Lift(u.conditionVirtualization, VirtualizationToken)),
      Scalar("Condition" + "Host", u.conditionHost),
      Scalar("Condition" + "KernelCommandLine", u.conditionKernelCommandLine),
      Scalar("Condition" + "KernelVersion", u.conditionKernelVersion),
      Scalar("Condition" + "Credential", u.conditionCredential),
      Scalar("Condition" + "Environment", u.conditionEnvironment),
      Joined("Condition" + "Security", LiftSeq(u.conditionSecurity, SecurityTechToken)),
      Joined("Condition" + "Capability", u.conditionCapability),
      Flag("Condition" + "ACPower", u.conditionAcPower),
      Scalar("Condition" + "NeedsUpdate", u.conditionNeedsUpdate),
      Flag("Condition" + "FirstBoot", u.conditionFirstBoot),
      Scalar("Condition" + "PathExists", u.conditionPathExists),
      Scalar("Condition" + "PathExistsGlob", u.conditionPathExistsGlob),
      Scalar("Condition" + "PathIsDirectory", u.conditionPathIsDirectory),
      Scalar("Condition" + "PathIsSymbolicLink", u.conditionPathIsSymbolicLink),
      Scalar("Condition" + "PathIsMountPoint", u.conditionPathIsMountPoint),
      Scalar("Condition" + "PathIsReadWrite", u.conditionPathIsReadWrite),
      Scalar("Condition" + "PathIsEncrypted", u.conditionPathIsEncrypted),
      Scalar("Condition" + "DirectoryNotEmpty", u.conditionDirectoryNotEmpty),
      Scalar("Condition" + "FileNotEmpty", u.conditionFileNotEmpty),
      Scalar("Condition" + "FileIsExecutable", u.conditionFileIsExecutable),
      Scalar("Condition" + "User", u.conditionUser),
      Scalar("Condition" + "Group", u.conditionGroup),
      Joined("Condition" + "ControlGroupController", u.conditionControlGroupController),
      Scalar("Condition" + "Memory", u.conditionMemory),
      Scalar("Condition" + "CPUs", u.conditionCpus),
      Joined("Condition" + "CPUFeature", u.conditionCpuFeature),
      Scalar("Condition" + "OSRelease", u.conditionOsRelease),
      Scalar("Condition" + "MemoryPressure", u.conditionMemoryPressure),
      Scalar("Condition" + "CPUPressure", u.conditionCpuPressure),
      Scalar("Condition" + "IOPressure", u.conditionIoPressure)
    ]
  }

  /** Assert checks: every key is `Assert` followed by the name of the check. */
  function AssertFields(u: Unit): seq<Field> {
    [
      Scalar("Assert" + "Architecture", Lift(u.assertArchitecture, ArchitectureToken)),
      Scalar("Assert" + "Firmware", u.assertFirmware),
      Scalar("Assert" + "Virtualization", Lift(u.assertVirtualization, VirtualizationToken)),
      Scalar("Assert" + "Host", u.assertHost),
      Scalar("Assert" + "KernelCommandLine", u.assertKernelCommandLine),
      Scalar("Assert" + "KernelVersion", u.assertKernelVersion),
      Scalar("Assert" + "Credential", u.assertCredential),
      Scalar("Assert" + "Environment", u.assertEnvironment),
      Joined("Assert" + "Security", LiftSeq(u.assertSecurity, SecurityTechToken)),
      Joined("Assert" + "Capability", u.assertCapability),
      Flag("Assert" + "ACPower", u.assertAcPower),
      Scalar("Assert" + "NeedsUpdate", u.assertNeedsUpdate),
      Flag("Assert" + "FirstBoot", u.assertFirstBoot),
      Scalar("Assert" + "PathExists", u.assertPathExists),
      Scalar("Assert" + "PathExistsGlob", u.assertPathExistsGlob),
      Scalar("Assert" + "PathIsDirectory", u.assertPathIsDirectory),
      Scalar("Assert" + "PathIsSymbolicLink", u.assertPathIsSymbolicLink),
      Scalar("Assert" + "PathIsMountPoint", u.assertPathIsMountPoint),
      Scalar("Assert" + "PathIsReadWrite", u.assertPathIsReadWrite),
      Scalar("Assert" + "PathIsEncrypted", u.assertPathIsEncrypted),
      Scalar("Assert" + "DirectoryNotEmpty", u.assertDirectoryNotEmpty),
      Scalar("Assert" + "FileNotEmpty", u.assertFileNotEmpty),
      Scalar("Assert" + "FileIsExecutable", u.assertFileIsExecutable),
      Scalar("Assert" + "User", u.assertUser),
      Scalar("Assert" + "Group", u.assertGroup),
      Joined("Assert" + "ControlGroupController", u.assertControlGroupController),
      Scalar("Assert" + "Memory", u.assertMemory),
      Scalar("Assert" + "CPUs", u.assertCpus),
      Joined("Assert" + "CPUFeature", u.assertCpuFeature),
      Scalar("Assert" + "OSRelease", u.assertOsRelease),
      Scalar("Assert" + "MemoryPressure", u.assertMemoryPressure),
      Scalar("Assert" + "CPUPressure", u.assertCpuPressure),
      Scalar("Assert" + "IOPressure", u.assertIoPressure)
    ]
  }

  function UnitText(u: Unit): string {
    SectionText("[Unit]", UnitFields(u))
  }

  /** `Display for Unit`. */
  method Fmt(u: Unit, buf: Formatter)
    modifies buf
    ensures buf.text == old(buf.text) + UnitText(u)
  {
    buf.WriteSection("[Unit]", UnitFields(u));
  }

  lemma DefaultMetadataFieldsSilent()
    ensures FieldsLines(MetadataFields(DefaultUnit)) == []
  {
    UnsetFieldsWriteNothing(MetadataFields(DefaultUnit));
  }

  lemma DefaultDependencyFieldsSilent()
    ensures FieldsLines(DependencyFields(DefaultUnit)) == []
  {
    UnsetFieldsWriteNothing(DependencyFields(DefaultUnit));
  }

  lemma DefaultOrderingFieldsSilent()
    ensures FieldsLines(OrderingFields(DefaultUnit)) == []
  {
    UnsetFieldsWriteNothing(OrderingFields(DefaultUnit));
  }

  lemma DefaultLifecycleFieldsSilent()
    ensures FieldsLines(LifecycleFields(DefaultUnit)) == []
  {
    UnsetFieldsWriteNothing(LifecycleFields(DefaultUnit));
  }

  lemma DefaultNamespaceFieldsSilent()
    ensures FieldsLines(NamespaceFields(DefaultUnit)) == []
  {
    UnsetFieldsWriteNothing(NamespaceFields(DefaultUnit));
  }

  lemma DefaultJobModeFieldsSilent()
    ensures FieldsLines(JobModeFields(DefaultUnit)) == []
  {
    UnsetFieldsWriteNothing(JobModeFields(DefaultUnit));
  }

  lemma DefaultBehaviorFieldsSilent()
    ensures FieldsLines(BehaviorFields(DefaultUnit)) == []
  {
    UnsetFieldsWriteNothing(BehaviorFields(DefaultUnit));
  }

  lemma DefaultActionFieldsSilent()
    ensures FieldsLines(ActionFields(DefaultUnit)) == []
  {
    UnsetFieldsWriteNothing(ActionFields(DefaultUnit));
  }

  lemma DefaultTimeoutFieldsSilent()
    ensures FieldsLines(TimeoutFields(DefaultUnit)) == []
  {
    UnsetFieldsWriteNothing(TimeoutFields(DefaultUnit));
  }

  lemma DefaultRateLimitFieldsSilent()
    ensures FieldsLines(RateLimitFields(DefaultUnit)) == []
  {
    UnsetFieldsWriteNothing(RateLimitFields(DefaultUnit));
  }

  lemma DefaultSourcePathFieldsSilent()
    ensures FieldsLines(SourcePathFields(DefaultUnit)) == []
  {
    UnsetFieldsWriteNothing(SourcePathFields(DefaultUnit));
  }

  lemma DefaultConditionFieldsSilent()
    ensures FieldsLines(ConditionFields(DefaultUnit)) == []
  {
    UnsetFieldsWriteNothing(ConditionFields(DefaultUnit));
  }

  lemma DefaultAssertFieldsSilent()
    ensures FieldsLines(AssertFields(DefaultUnit)) == []
  {
    UnsetFieldsWriteNothing(AssertFields(DefaultUnit));
  }

  /** A unit with no field set writes no option line. */
  lemma DefaultUnitLines()
    ensures UnitLines(DefaultUnit) == []
  {
    DefaultMetadataFieldsSilent();
    DefaultDependencyFieldsSilent();
    DefaultOrderingFieldsSilent();
    DefaultLifecycleFieldsSilent();
    DefaultNamespaceFieldsSilent();
    DefaultJobModeFieldsSilent();
    DefaultBehaviorFieldsSilent();
    DefaultActionFieldsSilent();
    DefaultTimeoutFieldsSilent();
    DefaultRateLimitFieldsSilent();
    DefaultSourcePathFieldsSilent();
    DefaultConditionFieldsSilent();
    DefaultAssertFieldsSilent();
    UnitLinesByGroup(DefaultUnit);
  }

  /** A unit with no field set renders as the bare header. */
  lemma DefaultUnitText()
    ensures UnitText(DefaultUnit) == "[Unit]\n"
  {
    DefaultUnitLines();
    UnitTextShape(DefaultUnit);
  }

  // ---------------------------------------------------------------------------
  // What the rendering promises
  // ---------------------------------------------------------------------------

  /** The option lines written below the `[Unit]` header. */
  function UnitLines(u: Unit): seq<string> {
    FieldsLines(UnitFields(u))
  }

  /** The rendering is the header line followed by the option lines. */
  lemma UnitTextShape(u: Unit)
    ensures StartsWith(UnitText(u), "[Unit]\n")
    ensures UnitText(u) == "[Unit]\n" + JoinLines(UnitLines(u))
  {
    SectionTextShape("[Unit]", UnitFields(u));
  }

  /** The option lines come out group by group, in the order of the source's sections. */
  lemma UnitLinesByGroup(u: Unit)
    ensures UnitLines(u) == FieldsLines(MetadataFields(u)) + FieldsLines(DependencyFields(u)) + FieldsLines(OrderingFields(u)) + FieldsLines(LifecycleFields(u)) + FieldsLines(NamespaceFields(u)) + FieldsLines(JobModeFields(u)) + FieldsLines(BehaviorFields(u)) + FieldsLines(ActionFields(u)) + FieldsLines(TimeoutFields(u)) + FieldsLines(RateLimitFields(u)) + FieldsLines(SourcePathFields(u)) + FieldsLines(ConditionFields(u)) + FieldsLines(AssertFields(u))
  {
    FieldsLinesAppend(SettingFields(u) + ConditionFields(u), AssertFields(u));
    FieldsLinesAppend(SettingFields(u), ConditionFields(u));
    FieldsLinesAppend(MetadataFields(u), DependencyFields(u));
    FieldsLinesAppend(MetadataFields(u) + DependencyFields(u), OrderingFields(u));
    FieldsLinesAppend(MetadataFields(u) + DependencyFields(u) + OrderingFields(u), LifecycleFields(u));
    FieldsLinesAppend(MetadataFields(u) + DependencyFields(u) + OrderingFields(u) + LifecycleFields(u), NamespaceFields(u));
    FieldsLinesAppend(MetadataFields(u) + DependencyFields(u) + OrderingFields(u) + LifecycleFields(u) + NamespaceFields(u), JobModeFields(u));
    FieldsLinesAppend(MetadataFields(u) + DependencyFields(u) + OrderingFields(u) + LifecycleFields(u) + NamespaceFields(u) + JobModeFields(u), BehaviorFields(u));
    FieldsLinesAppend(MetadataFields(u) + DependencyFields(u) + OrderingFields(u) + LifecycleFields(u) + NamespaceFields(u) + JobModeFields(u) + BehaviorFields(u), ActionFields(u));
    FieldsLinesAppend(MetadataFields(u) + DependencyFields(u) + OrderingFields(u) + LifecycleFields(u) + NamespaceFields(u) + JobModeFields(u) + BehaviorFields(u) + ActionFields(u), TimeoutFields(u));
    FieldsLinesAppend(MetadataFields(u) + DependencyFields(u) + OrderingFields(u) + LifecycleFields(u) + NamespaceFields(u) + JobModeFields(u) + BehaviorFields(u) + ActionFields(u) + TimeoutFields(u), RateLimitFields(u));
    FieldsLinesAppend(MetadataFields(u) + DependencyFields(u) + OrderingFields(u) + LifecycleFields(u) + NamespaceFields(u) + JobModeFields(u) + BehaviorFields(u) + ActionFields(u) + TimeoutFields(u) + RateLimitFields(u), SourcePathFields(u));
  }

  /**
   * Below the other settings come every Condition* line and then every
   * Assert* line.
   */
  lemma ConditionsThenAsserts(u: Unit)
    ensures UnitLines(u) == FieldsLines(SettingFields(u)) + FieldsLines(ConditionFields(u)) + FieldsLines(AssertFields(u))
    ensures forall p :: 0 <= p < |FieldsLines(ConditionFields(u))| ==> StartsWith(FieldsLines(ConditionFields(u))[p], "Condition")
    ensures forall p :: 0 <= p < |FieldsLines(AssertFields(u))| ==> StartsWith(FieldsLines(AssertFields(u))[p], "Assert")
  {
    FieldsLinesAppend(SettingFields(u) + ConditionFields(u), AssertFields(u));
    FieldsLinesAppend(SettingFields(u), ConditionFields(u));
    ConditionKeys(u);
    AssertKeys(u);
    PrefixedKeysPrefixedLines(ConditionFields(u), "Condition");
    PrefixedKeysPrefixedLines(AssertFields(u), "Assert");
  }

  lemma ConditionKeys(u: Unit)
    ensures KeysStartWith(ConditionFields(u), "Condition")
  {
  }

  lemma AssertKeys(u: Unit)
    ensures KeysStartWith(AssertFields(u), "Assert")
  {
  }

  /**
   * The exit-status, job-timeout and start-limit numbers are written as
   * `Key=<decimal>` (`DecimalRoundTrip`: digits only, read back as the number)
   * among the lines of their group, which `UnitLinesByGroup` places in the text.
   */
  lemma ActionNumbersRenderDecimal(u: Unit)
    ensures u.failureActionExitStatus.Some? ==> "FailureActionExitStatus" + "=" + Decimal(u.failureActionExitStatus.value) in FieldsLines(ActionFields(u))
    ensures u.successActionExitStatus.Some? ==> "SuccessActionExitStatus" + "=" + Decimal(u.successActionExitStatus.value) in FieldsLines(ActionFields(u))
  {
    if u.failureActionExitStatus.Some? {
      FieldLinesWritten(ActionFields(u), 3);
      assert "FailureActionExitStatus" + "=" + Decimal(u.failureActionExitStatus.value) in FieldLines(ActionFields(u)[3]);
    }
    if u.successActionExitStatus.Some? {
      FieldLinesWritten(ActionFields(u), 4);
      assert "SuccessActionExitStatus" + "=" + Decimal(u.successActionExitStatus.value) in FieldLines(ActionFields(u)[4]);
    }
  }

  lemma TimeoutNumbersRenderDecimal(u: Unit)
    ensures u.jobTimeoutSec.Some? ==> "JobTimeoutSec" + "=" + Decimal(u.jobTimeoutSec.value) in FieldsLines(TimeoutFields(u))
    ensures u.jobRunningTimeoutSec.Some? ==> "JobRunningTimeoutSec" + "=" + Decimal(u.jobRunningTimeoutSec.value) in FieldsLines(TimeoutFields(u))
  {
    if u.jobTimeoutSec.Some? {
      FieldLinesWritten(TimeoutFields(u), 0);
      assert "JobTimeoutSec" + "=" + Decimal(u.jobTimeoutSec.value) in FieldLines(TimeoutFields(u)[0]);
    }
    if u.jobRunningTimeoutSec.Some? {
      FieldLinesWritten(TimeoutFields(u), 1);
      assert "JobRunningTimeoutSec" + "=" + Decimal(u.jobRunningTimeoutSec.value) in FieldLines(TimeoutFields(u)[1]);
    }
  }

  lemma RateLimitNumbersRenderDecimal(u: Unit)
    ensures u.startLimitIntervalSec.Some? ==> "StartLimitIntervalSec" + "=" + Decimal(u.startLimitIntervalSec.value) in FieldsLines(RateLimitFields(u))
    ensures u.startLimitBurst.Some? ==> "StartLimitBurst" + "=" + Decimal(u.startLimitBurst.value) in FieldsLines(RateLimitFields(u))
  {
    if u.startLimitIntervalSec.Some? {
      FieldLinesWritten(RateLimitFields(u), 0);
      assert "StartLimitIntervalSec" + "=" + Decimal(u.startLimitIntervalSec.value) in FieldLines(RateLimitFields(u)[0]);
    }
    if u.startLimitBurst.Some? {
      FieldLinesWritten(RateLimitFields(u), 1);
      assert "StartLimitBurst" + "=" + Decimal(u.startLimitBurst.value) in FieldLines(RateLimitFields(u)[1]);
    }
  }

  // ---------------------------------------------------------------------------
  // Unit::validate
  // ---------------------------------------------------------------------------

  /** The URI schemes systemd accepts in `Documentation=`. */
  predicate IsDocumentationUri(doc: string) {
    StartsWith(doc, "http://") || StartsWith(doc, "https://") || StartsWith(doc, "file:")
    || StartsWith(doc, "info:") || StartsWith(doc, "man:")
  }

  predicate HasCapPrefix(cap: string) {
    StartsWith(cap, "CAP_")
  }

  function DocumentationError(doc: string): string {
    "Invalid documentation URI '" + doc + "': must start with http://, https://, file:, info:, or man:"
  }

  function ConditionCapabilityError(cap: string): string {
    "Invalid ConditionCapability '" + cap + "': must start with CAP_"
  }

  function AssertCapabilityError(cap: string): string {
    "Invalid AssertCapability '" + cap + "': must start with CAP_"
  }

  /**
   * `Unit::validate`: the documentation loop, then the ConditionCapability
   * loop, then the AssertCapability loop, each returning at its first bad
   * element. It accepts exactly the units whose lists all pass.
   */
  function Validate(u: Unit): (r: Result<(), string>)
    ensures r.Ok? <==>
      AllPresentOk(u.documentation, IsDocumentationUri)
      && AllPresentOk(u.conditionCapability, HasCapPrefix)
      && AllPresentOk(u.assertCapability, HasCapPrefix)
  {
    CheckEachPresentFirstViolation(u.documentation, IsDocumentationUri, DocumentationError);
    CheckEachPresentFirstViolation(u.conditionCapability, HasCapPrefix, ConditionCapabilityError);
    CheckEachPresentFirstViolation(u.assertCapability, HasCapPrefix, AssertCapabilityError);
    AndThen(CheckEachPresent(u.documentation, IsDocumentationUri, DocumentationError),
      AndThen(CheckEachPresent(u.conditionCapability, HasCapPrefix, ConditionCapabilityError),
        CheckEachPresent(u.assertCapability, HasCapPrefix, AssertCapabilityError)))
  }

  /** Every complaint about a unit, documentation first, each list in its own order. */
  function UnitViolations(u: Unit): seq<string> {
    PresentViolations(u.documentation, IsDocumentationUri, DocumentationError)
    + PresentViolations(u.conditionCapability, HasCapPrefix, ConditionCapabilityError)
    + PresentViolations(u.assertCapability, HasCapPrefix, AssertCapabilityError)
  }

  /** `validate` reports the first complaint of the full list, or none. */
  lemma ValidateReportsFirstViolation(u: Unit)
    ensures Validate(u) == Verdict(UnitViolations(u))
  {
    var d := PresentViolations(u.documentation, IsDocumentationUri, DocumentationError);
    var c := PresentViolations(u.conditionCapability, HasCapPrefix, ConditionCapabilityError);
    var a := PresentViolations(u.assertCapability, HasCapPrefix, AssertCapabilityError);
    CheckEachPresentFirstViolation(u.documentation, IsDocumentationUri, DocumentationError);
    CheckEachPresentFirstViolation(u.conditionCapability, HasCapPrefix, ConditionCapabilityError);
    CheckEachPresentFirstViolation(u.assertCapability, HasCapPrefix, AssertCapabilityError);
    VerdictAppend(c, a);
    VerdictAppend(d, c + a);
    assert d + c + a == d + (c + a);
  }

  /** A bad documentation URI is reported before any capability, and it is the first bad one. */
  lemma ValidateReportsFirstBadDocumentation(u: Unit, i: nat)
    requires u.documentation.Some? && i < |u.documentation.value|
    requires !IsDocumentationUri(u.documentation.value[i])
    requires forall j :: 0 <= j < i ==> IsDocumentationUri(u.documentation.value[j])
    ensures Validate(u) == Err(DocumentationError(u.documentation.value[i]))
  {
    CheckEachReportsFirst(u.documentation.value, IsDocumentationUri, DocumentationError, i);
  }

  /** With the documentation valid, the first ConditionCapability without `CAP_` is reported. */
  lemma ValidateReportsFirstBadConditionCapability(u: Unit, i: nat)
    requires AllPresentOk(u.documentation, IsDocumentationUri)
    requires u.conditionCapability.Some? && i < |u.conditionCapability.value|
    requires !HasCapPrefix(u.conditionCapability.value[i])
    requires forall j :: 0 <= j < i ==> HasCapPrefix(u.conditionCapability.value[j])
    ensures Validate(u) == Err(ConditionCapabilityError(u.conditionCapability.value[i]))
  {
    CheckEachPresentFirstViolation(u.documentation, IsDocumentationUri, DocumentationError);
    CheckEachReportsFirst(u.conditionCapability.value, HasCapPrefix, ConditionCapabilityError, i);
  }

  /** With the other two lists valid, the first AssertCapability without `CAP_` is reported. */
  lemma ValidateReportsFirstBadAssertCapability(u: Unit, i: nat)
    requires AllPresentOk(u.documentation, IsDocumentationUri)
    requires AllPresentOk(u.conditionCapability, HasCapPrefix)
    requires u.assertCapability.Some? && i < |u.assertCapability.value|
    requires !HasCapPrefix(u.assertCapability.value[i])
    requires forall j :: 0 <= j < i ==> HasCapPrefix(u.assertCapability.value[j])
    ensures Validate(u) == Err(AssertCapabilityError(u.assertCapability.value[i]))
  {
    CheckEachPresentFirstViolation(u.documentation, IsDocumentationUri, DocumentationError);
    CheckEachPresentFirstViolation(u.conditionCapability, HasCapPrefix, ConditionCapabilityError);
    CheckEachReportsFirst(u.assertCapability.value, HasCapPrefix, AssertCapabilityError, i);
  }

  // ---------------------------------------------------------------------------
  // Builder setters: each sets its own field to `Some(value)` and nothing else
  // ---------------------------------------------------------------------------

  function SetDescription(u: Unit, value: string): (r: Unit)
    ensures r.description == Some(value)
    ensures r.(description := u.description) == u
  {
    u.(description := Some(value))
  }

  function SetDocumentation(u: Unit, value: seq<string>): (r: Unit)
    ensures r.documentation == Some(value)
    ensures r.(documentation := u.documentation) == u
  {
    u.(documentation := Some(value))
  }

  function SetWants(u: Unit, value: seq<string>): (r: Unit)
    ensures r.wants == Some(value)
    ensures r.(wants := u.wants) == u
  {
    u.(wants := Some(value))
  }

  function SetRequires(u: Unit, value: seq<string>): (r: Unit)
    ensures r.requiresUnits == Some(value)
    ensures r.(requiresUnits := u.requiresUnits) == u
  {
    u.(requiresUnits := Some(value))
  }

  function SetRequisite(u: Unit, value: seq<string>): (r: Unit)
    ensures r.requisite == Some(value)
    ensures r.(requisite := u.requisite) == u
  {
    u.(requisite := Some(value))
  }

  function SetBindsTo(u: Unit, value: seq<string>): (r: Unit)
    ensures r.bindsTo == Some(value)
    ensures r.(bindsTo := u.bindsTo) == u
  {
    u.(bindsTo := Some(value))
  }

  function SetPartOf(u: Unit, value: seq<string>): (r: Unit)
    ensures r.partOf == Some(value)
    ensures r.(partOf := u.partOf) == u
  {
    u.(partOf := Some(value))
  }

  function SetUpholds(u: Unit, value: seq<string>): (r: Unit)
    ensures r.upholds == Some(value)
    ensures r.(upholds := u.upholds) == u
  {
    u.(upholds := Some(value))
  }

  function SetConflicts(u: Unit, value: seq<string>): (r: Unit)
    ensures r.conflicts == Some(value)
    ensures r.(conflicts := u.conflicts) == u
  {
    u.(conflicts := Some(value))
  }

  function SetBefore(u: Unit, value: seq<string>): (r: Unit)
    ensures r.before == Some(value)
    ensures r.(before := u.before) == u
  {
    u.(before := Some(value))
  }

  function SetAfter(u: Unit, value: seq<string>): (r: Unit)
    ensures r.after == Some(value)
    ensures r.(after := u.after) == u
  {
    u.(after := Some(value))
  }

  function SetOnFailure(u: Unit, value: seq<string>): (r: Unit)
    ensures r.onFailure == Some(value)
    ensures r.(onFailure := u.onFailure) == u
  {
    u.(onFailure := Some(value))
  }

  function SetOnSuccess(u: Unit, value: seq<string>): (r: Unit)
    ensures r.onSuccess == Some(value)
    ensures r.(onSuccess := u.onSuccess) == u
  {
    u.(onSuccess := Some(value))
  }

  function SetPropagatesReloadTo(u: Unit, value: seq<string>): (r: Unit)
    ensures r.propagatesReloadTo == Some(value)
    ensures r.(propagatesReloadTo := u.propagatesReloadTo) == u
  {
    u.(propagatesReloadTo := Some(value))
  }

  function SetReloadPropagatedFrom(u: Unit, value: seq<string>): (r: Unit)
    ensures r.reloadPropagatedFrom == Some(value)
    ensures r.(reloadPropagatedFrom := u.reloadPropagatedFrom) == u
  {
    u.(reloadPropagatedFrom := Some(value))
  }

  function SetPropagatesStopTo(u: Unit, value: seq<string>): (r: Unit)
    ensures r.propagatesStopTo == Some(value)
    ensures r.(propagatesStopTo := u.propagatesStopTo) == u
  {
    u.(propagatesStopTo := Some(value))
  }

  function SetStopPropagatedFrom(u: Unit, value: seq<string>): (r: Unit)
    ensures r.stopPropagatedFrom == Some(value)
    ensures r.(stopPropagatedFrom := u.stopPropagatedFrom) == u
  {
    u.(stopPropagatedFrom := Some(value))
  }

  function SetJoinsNamespaceOf(u: Unit, value: seq<string>): (r: Unit)
    ensures r.joinsNamespaceOf == Some(value)
    ensures r.(joinsNamespaceOf := u.joinsNamespaceOf) == u
  {
    u.(joinsNamespaceOf := Some(value))
  }

  function SetRequiresMountsFor(u: Unit, value: seq<string>): (r: Unit)
    ensures r.requiresMountsFor == Some(value)
    ensures r.(requiresMountsFor := u.requiresMountsFor) == u
  {
    u.(requiresMountsFor := Some(value))
  }

  function SetWantsMountsFor(u: Unit, value: seq<string>): (r: Unit)
    ensures r.wantsMountsFor == Some(value)
    ensures r.(wantsMountsFor := u.wantsMountsFor) == u
  {
    u.(wantsMountsFor := Some(value))
  }

  function SetOnSuccessJobMode(u: Unit, value: JobMode): (r: Unit)
    ensures r.onSuccessJobMode == Some(value)
    ensures r.(onSuccessJobMode := u.onSuccessJobMode) == u
  {
    u.(onSuccessJobMode := Some(value))
  }

  function SetOnFailureJobMode(u: Unit, value: JobMode): (r: Unit)
    ensures r.onFailureJobMode == Some(value)
    ensures r.(onFailureJobMode := u.onFailureJobMode) == u
  {
    u.(onFailureJobMode := Some(value))
  }

  function SetIgnoreOnIsolate(u: Unit, value: bool): (r: Unit)
    ensures r.ignoreOnIsolate == Some(value)
    ensures r.(ignoreOnIsolate := u.ignoreOnIsolate) == u
  {
    u.(ignoreOnIsolate := Some(value))
  }

  function SetStopWhenUnneeded(u: Unit, value: bool): (r: Unit)
    ensures r.stopWhenUnneeded == Some(value)
    ensures r.(stopWhenUnneeded := u.stopWhenUnneeded) == u
  {
    u.(stopWhenUnneeded := Some(value))
  }

  function SetRefuseManualStart(u: Unit, value: bool): (r: Unit)
    ensures r.refuseManualStart == Some(value)
    ensures r.(refuseManualStart := u.refuseManualStart) == u
  {
    u.(refuseManualStart := Some(value))
  }

  function SetRefuseManualStop(u: Unit, value: bool): (r: Unit)
    ensures r.refuseManualStop == Some(value)
    ensures r.(refuseManualStop := u.refuseManualStop) == u
  {
    u.(refuseManualStop := Some(value))
  }

  function SetAllowIsolate(u: Unit, value: bool): (r: Unit)
    ensures r.allowIsolate == Some(value)
    ensures r.(allowIsolate := u.allowIsolate) == u
  {
    u.(allowIsolate := Some(value))
  }

  function SetDefaultDependencies(u: Unit, value: bool): (r: Unit)
    ensures r.defaultDependencies == Some(value)
    ensures r.(defaultDependencies := u.defaultDependencies) == u
  {
    u.(defaultDependencies := Some(value))
  }

  function SetSurviveFinalKillSignal(u: Unit, value: bool): (r: Unit)
    ensures r.surviveFinalKillSignal == Some(value)
    ensures r.(surviveFinalKillSignal := u.surviveFinalKillSignal) == u
  {
    u.(surviveFinalKillSignal := Some(value))
  }

  function SetCollectMode(u: Unit, value: CollectMode): (r: Unit)
    ensures r.collectMode == Some(value)
    ensures r.(collectMode := u.collectMode) == u
  {
    u.(collectMode := Some(value))
  }

  function SetFailureAction(u: Unit, value: Action): (r: Unit)
    ensures r.failureAction == Some(value)
    ensures r.(failureAction := u.failureAction) == u
  {
    u.(failureAction := Some(value))
  }

  function SetSuccessAction(u: Unit, value: Action): (r: Unit)
    ensures r.successAction == Some(value)
    ensures r.(successAction := u.successAction) == u
  {
    u.(successAction := Some(value))
  }

  function SetFailureActionExitStatus(u: Unit, value: u8): (r: Unit)
    ensures r.failureActionExitStatus == Some(value)
    ensures r.(failureActionExitStatus := u.failureActionExitStatus) == u
  {
    u.(failureActionExitStatus := Some(value))
  }

  function SetSuccessActionExitStatus(u: Unit, value: u8): (r: Unit)
    ensures r.successActionExitStatus == Some(value)
    ensures r.(successActionExitStatus := u.successActionExitStatus) == u
  {
    u.(successActionExitStatus := Some(value))
  }

  function SetJobTimeoutSec(u: Unit, value: u64): (r: Unit)
    ensures r.jobTimeoutSec == Some(value)
    ensures r.(jobTimeoutSec := u.jobTimeoutSec) == u
  {
    u.(jobTimeoutSec := Some(value))
  }

  function SetJobRunningTimeoutSec(u: Unit, value: u64): (r: Unit)
    ensures r.jobRunningTimeoutSec == Some(value)
    ensures r.(jobRunningTimeoutSec := u.jobRunningTimeoutSec) == u
  {
    u.(jobRunningTimeoutSec := Some(value))
  }

  function SetJobTimeoutAction(u: Unit, value: Action): (r: Unit)
    ensures r.jobTimeoutAction == Some(value)
    ensures r.(jobTimeoutAction := u.jobTimeoutAction) == u
  {
    u.(jobTimeoutAction := Some(value))
  }

  function SetJobTimeoutRebootArgument(u: Unit, value: string): (r: Unit)
    ensures r.jobTimeoutRebootArgument == Some(value)
    ensures r.(jobTimeoutRebootArgument := u.jobTimeoutRebootArgument) == u
  {
    u.(jobTimeoutRebootArgument := Some(value))
  }

  function SetStartLimitIntervalSec(u: Unit, value: u64): (r: Unit)
    ensures r.startLimitIntervalSec == Some(value)
    ensures r.(startLimitIntervalSec := u.startLimitIntervalSec) == u
  {
    u.(startLimitIntervalSec := Some(value))
  }

  function SetStartLimitBurst(u: Unit, value: u32): (r: Unit)
    ensures r.startLimitBurst == Some(value)
    ensures r.(startLimitBurst := u.startLimitBurst) == u
  {
    u.(startLimitBurst := Some(value))
  }

  function SetStartLimitAction(u: Unit, value: Action): (r: Unit)
    ensures r.startLimitAction == Some(value)
    ensures r.(startLimitAction := u.startLimitAction) == u
  {
    u.(startLimitAction := Some(value))
  }

  function SetRebootArgument(u: Unit, value: string): (r: Unit)
    ensures r.rebootArgument == Some(value)
    ensures r.(rebootArgument := u.rebootArgument) == u
  {
    u.(rebootArgument := Some(value))
  }

  function SetSourcePath(u: Unit, value: Path): (r: Unit)
    ensures r.sourcePath == Some(value)
    ensures r.(sourcePath := u.sourcePath) == u
  {
    u.(sourcePath := Some(value))
  }

  function SetConditionArchitecture(u: Unit, value: Architecture): (r: Unit)
    ensures r.conditionArchitecture == Some(value)
    ensures r.(conditionArchitecture := u.conditionArchitecture) == u
  {
    u.(conditionArchitecture := Some(value))
  }

  function SetConditionFirmware(u: Unit, value: string): (r: Unit)
    ensures r.conditionFirmware == Some(value)
    ensures r.(conditionFirmware := u.conditionFirmware) == u
  {
    u.(conditionFirmware := Some(value))
  }

  function SetConditionVirtualization(u: Unit, value: Virtualization): (r: Unit)
    ensures r.conditionVirtualization == Some(value)
    ensures r.(conditionVirtualization := u.conditionVirtualization) == u
  {
    u.(conditionVirtualization := Some(value))
  }

  function SetConditionHost(u: Unit, value: string): (r: Unit)
    ensures r.conditionHost == Some(value)
    ensures r.(conditionHost := u.conditionHost) == u
  {
    u.(conditionHost := Some(value))
  }

  function SetConditionKernelCommandLine(u: Unit, value: string): (r: Unit)
    ensures r.conditionKernelCommandLine == Some(value)
    ensures r.(conditionKernelCommandLine := u.conditionKernelCommandLine) == u
  {
    u.(conditionKernelCommandLine := Some(value))
  }

  function SetConditionKernelVersion(u: Unit, value: string): (r: Unit)
    ensures r.conditionKernelVersion == Some(value)
    ensures r.(conditionKernelVersion := u.conditionKernelVersion) == u
  {
    u.(conditionKernelVersion := Some(value))
  }

  function SetConditionCredential(u: Unit, value: string): (r: Unit)
    ensures r.conditionCredential == Some(value)
    ensures r.(conditionCredential := u.conditionCredential) == u
  {
    u.(conditionCredential := Some(value))
  }

  function SetConditionEnvironment(u: Unit, value: string): (r: Unit)
    ensures r.conditionEnvironment == Some(value)
    ensures r.(conditionEnvironment := u.conditionEnvironment) == u
  {
    u.(conditionEnvironment := Some(value))
  }

  function SetConditionSecurity(u: Unit, value: seq<SecurityTech>): (r: Unit)
    ensures r.conditionSecurity == Some(value)
    ensures r.(conditionSecurity := u.conditionSecurity) == u
  {
    u.(conditionSecurity := Some(value))
  }

  function SetConditionCapability(u: Unit, value: seq<string>): (r: Unit)
    ensures r.conditionCapability == Some(value)
    ensures r.(conditionCapability := u.conditionCapability) == u
  {
    u.(conditionCapability := Some(value))
  }

  function SetConditionAcPower(u: Unit, value: bool): (r: Unit)
    ensures r.conditionAcPower == Some(value)
    ensures r.(conditionAcPower := u.conditionAcPower) == u
  {
    u.(conditionAcPower := Some(value))
  }

  function SetConditionNeedsUpdate(u: Unit, value: string): (r: Unit)
    ensures r.conditionNeedsUpdate == Some(value)
    ensures r.(conditionNeedsUpdate := u.conditionNeedsUpdate) == u
  {
    u.(conditionNeedsUpdate := Some(value))
  }

  function SetConditionFirstBoot(u: Unit, value: bool): (r: Unit)
    ensures r.conditionFirstBoot == Some(value)
    ensures r.(conditionFirstBoot := u.conditionFirstBoot) == u
  {
    u.(conditionFirstBoot := Some(value))
  }

  function SetConditionPathExists(u: Unit, value: string): (r: Unit)
    ensures r.conditionPathExists == Some(value)
    ensures r.(conditionPathExists := u.conditionPathExists) == u
  {
    u.(conditionPathExists := Some(value))
  }

  function SetConditionPathExistsGlob(u: Unit, value: string): (r: Unit)
    ensures r.conditionPathExistsGlob == Some(value)
    ensures r.(conditionPathExistsGlob := u.conditionPathExistsGlob) == u
  {
    u.(conditionPathExistsGlob := Some(value))
  }

  function SetConditionPathIsDirectory(u: Unit, value: string): (r: Unit)
    ensures r.conditionPathIsDirectory == Some(value)
    ensures r.(conditionPathIsDirectory := u.conditionPathIsDirectory) == u
  {
    u.(conditionPathIsDirectory := Some(value))
  }

  function SetConditionPathIsSymbolicLink(u: Unit, value: string): (r: Unit)
    ensures r.conditionPathIsSymbolicLink == Some(value)
    ensures r.(conditionPathIsSymbolicLink := u.conditionPathIsSymbolicLink) == u
  {
    u.(conditionPathIsSymbolicLink := Some(value))
  }

  function SetConditionPathIsMountPoint(u: Unit, value: string): (r: Unit)
    ensures r.conditionPathIsMountPoint == Some(value)
    ensures r.(conditionPathIsMountPoint := u.conditionPathIsMountPoint) == u
  {
    u.(conditionPathIsMountPoint := Some(value))
  }

  function SetConditionPathIsReadWrite(u: Unit, value: string): (r: Unit)
    ensures r.conditionPathIsReadWrite == Some(value)
    ensures r.(conditionPathIsReadWrite := u.conditionPathIsReadWrite) == u
  {
    u.(conditionPathIsReadWrite := Some(value))
  }

  function SetConditionPathIsEncrypted(u: Unit, value: string): (r: Unit)
    ensures r.conditionPathIsEncrypted == Some(value)
    ensures r.(conditionPathIsEncrypted := u.conditionPathIsEncrypted) == u
  {
    u.(conditionPathIsEncrypted := Some(value))
  }

  function SetConditionDirectoryNotEmpty(u: Unit, value: string): (r: Unit)
    ensures r.conditionDirectoryNotEmpty == Some(value)
    ensures r.(conditionDirectoryNotEmpty := u.conditionDirectoryNotEmpty) == u
  {
    u.(conditionDirectoryNotEmpty := Some(value))
  }

  function SetConditionFileNotEmpty(u: Unit, value: string): (r: Unit)
    ensures r.conditionFileNotEmpty == Some(value)
    ensures r.(conditionFileNotEmpty := u.conditionFileNotEmpty) == u
  {
    u.(conditionFileNotEmpty := Some(value))
  }

  function SetConditionFileIsExecutable(u: Unit, value: string): (r: Unit)
    ensures r.conditionFileIsExecutable == Some(value)
    ensures r.(conditionFileIsExecutable := u.conditionFileIsExecutable) == u
  {
    u.(conditionFileIsExecutable := Some(value))
  }

  function SetConditionUser(u: Unit, value: string): (r: Unit)
    ensures r.conditionUser == Some(value)
    ensures r.(conditionUser := u.conditionUser) == u
  {
    u.(conditionUser := Some(value))
  }

  function SetConditionGroup(u: Unit, value: string): (r: Unit)
    ensures r.conditionGroup == Some(value)
    ensures r.(conditionGroup := u.conditionGroup) == u
  {
    u.(conditionGroup := Some(value))
  }

  function SetConditionControlGroupController(u: Unit, value: seq<string>): (r: Unit)
    ensures r.conditionControlGroupController == Some(value)
    ensures r.(conditionControlGroupController := u.conditionControlGroupController) == u
  {
    u.(conditionControlGroupController := Some(value))
  }

  function SetConditionMemory(u: Unit, value: string): (r: Unit)
    ensures r.conditionMemory == Some(value)
    ensures r.(conditionMemory := u.conditionMemory) == u
  {
    u.(conditionMemory := Some(value))
  }

  function SetConditionCpus(u: Unit, value: string): (r: Unit)
    ensures r.conditionCpus == Some(value)
    ensures r.(conditionCpus := u.conditionCpus) == u
  {
    u.(conditionCpus := Some(value))
  }

  function SetConditionCpuFeature(u: Unit, value: seq<string>): (r: Unit)
    ensures r.conditionCpuFeature == Some(value)
    ensures r.(conditionCpuFeature := u.conditionCpuFeature) == u
  {
    u.(conditionCpuFeature := Some(value))
  }

  function SetConditionOsRelease(u: Unit, value: string): (r: Unit)
    ensures r.conditionOsRelease == Some(value)
    ensures r.(conditionOsRelease := u.conditionOsRelease) == u
  {
    u.(conditionOsRelease := Some(value))
  }

  function SetConditionMemoryPressure(u: Unit, value: string): (r: Unit)
    ensures r.conditionMemoryPressure == Some(value)
    ensures r.(conditionMemoryPressure := u.conditionMemoryPressure) == u
  {
    u.(conditionMemoryPressure := Some(value))
  }

  function SetConditionCpuPressure(u: Unit, value: string): (r: Unit)
    ensures r.conditionCpuPressure == Some(value)
    ensures r.(conditionCpuPressure := u.conditionCpuPressure) == u
  {
    u.(conditionCpuPressure := Some(value))
  }

  function SetConditionIoPressure(u: Unit, value: string): (r: Unit)
    ensures r.conditionIoPressure == Some(value)
    ensures r.(conditionIoPressure := u.conditionIoPressure) == u
  {
    u.(conditionIoPressure := Some(value))
  }

  function SetAssertArchitecture(u: Unit, value: Architecture): (r: Unit)
    ensures r.assertArchitecture == Some(value)
    ensures r.(assertArchitecture := u.assertArchitecture) == u
  {
    u.(assertArchitecture := Some(value))
  }

  function SetAssertFirmware(u: Unit, value: string): (r: Unit)
    ensures r.assertFirmware == Some(value)
    ensures r.(assertFirmware := u.assertFirmware) == u
  {
    u.(assertFirmware := Some(value))
  }

  function SetAssertVirtualization(u: Unit, value: Virtualization): (r: Unit)
    ensures r.assertVirtualization == Some(value)
    ensures r.(assertVirtualization := u.assertVirtualization) == u
  {
    u.(assertVirtualization := Some(value))
  }

  function SetAssertHost(u: Unit, value: string): (r: Unit)
    ensures r.assertHost == Some(value)
    ensures r.(assertHost := u.assertHost) == u
  {
    u.(assertHost := Some(value))
  }

  function SetAssertKernelCommandLine(u: Unit, value: string): (r: Unit)
    ensures r.assertKernelCommandLine == Some(value)
    ensures r.(assertKernelCommandLine := u.assertKernelCommandLine) == u
  {
    u.(assertKernelCommandLine := Some(value))
  }

  function SetAssertKernelVersion(u: Unit, value: string): (r: Unit)
    ensures r.assertKernelVersion == Some(value)
    ensures r.(assertKernelVersion := u.assertKernelVersion) == u
  {
    u.(assertKernelVersion := Some(value))
  }

  function SetAssertCredential(u: Unit, value: string): (r: Unit)
    ensures r.assertCredential == Some(value)
    ensures r.(assertCredential := u.assertCredential) == u
  {
    u.(assertCredential := Some(value))
  }

  function SetAssertEnvironment(u: Unit, value: string): (r: Unit)
    ensures r.assertEnvironment == Some(value)
    ensures r.(assertEnvironment := u.assertEnvironment) == u
  {
    u.(assertEnvironment := Some(value))
  }

  function SetAssertSecurity(u: Unit, value: seq<SecurityTech>): (r: Unit)
    ensures r.assertSecurity == Some(value)
    ensures r.(assertSecurity := u.assertSecurity) == u
  {
    u.(assertSecurity := Some(value))
  }

  function SetAssertCapability(u: Unit, value: seq<string>): (r: Unit)
    ensures r.assertCapability == Some(value)
    ensures r.(assertCapability := u.assertCapability) == u
  {
    u.(assertCapability := Some(value))
  }

  function SetAssertAcPower(u: Unit, value: bool): (r: Unit)
    ensures r.assertAcPower == Some(value)
    ensures r.(assertAcPower := u.assertAcPower) == u
  {
    u.(assertAcPower := Some(value))
  }

  function SetAssertNeedsUpdate(u: Unit, value: string): (r: Unit)
    ensures r.assertNeedsUpdate == Some(value)
    ensures r.(assertNeedsUpdate := u.assertNeedsUpdate) == u
  {
    u.(assertNeedsUpdate := Some(value))
  }

  function SetAssertFirstBoot(u: Unit, value: bool): (r: Unit)
    ensures r.assertFirstBoot == Some(value)
    ensures r.(assertFirstBoot := u.assertFirstBoot) == u
  {
    u.(assertFirstBoot := Some(value))
  }

  function SetAssertPathExists(u: Unit, value: string): (r: Unit)
    ensures r.assertPathExists == Some(value)
    ensures r.(assertPathExists := u.assertPathExists) == u
  {
    u.(assertPathExists := Some(value))
  }

  function SetAssertPathExistsGlob(u: Unit, value: string): (r: Unit)
    ensures r.assertPathExistsGlob == Some(value)
    ensures r.(assertPathExistsGlob := u.assertPathExistsGlob) == u
  {
    u.(assertPathExistsGlob := Some(value))
  }

  function SetAssertPathIsDirectory(u: Unit, value: string): (r: Unit)
    ensures r.assertPathIsDirectory == Some(value)
    ensures r.(assertPathIsDirectory := u.assertPathIsDirectory) == u
  {
    u.(assertPathIsDirectory := Some(value))
  }

  function SetAssertPathIsSymbolicLink(u: Unit, value: string): (r: Unit)
    ensures r.assertPathIsSymbolicLink == Some(value)
    ensures r.(assertPathIsSymbolicLink := u.assertPathIsSymbolicLink) == u
  {
    u.(assertPathIsSymbolicLink := Some(value))
  }

  function SetAssertPathIsMountPoint(u: Unit, value: string): (r: Unit)
    ensures r.assertPathIsMountPoint == Some(value)
    ensures r.(assertPathIsMountPoint := u.assertPathIsMountPoint) == u
  {
    u.(assertPathIsMountPoint := Some(value))
  }

  function SetAssertPathIsReadWrite(u: Unit, value: string): (r: Unit)
    ensures r.assertPathIsReadWrite == Some(value)
    ensures r.(assertPathIsReadWrite := u.assertPathIsReadWrite) == u
  {
    u.(assertPathIsReadWrite := Some(value))
  }

  function SetAssertPathIsEncrypted(u: Unit, value: string): (r: Unit)
    ensures r.assertPathIsEncrypted == Some(value)
    ensures r.(assertPathIsEncrypted := u.assertPathIsEncrypted) == u
  {
    u.(assertPathIsEncrypted := Some(value))
  }

  function SetAssertDirectoryNotEmpty(u: Unit, value: string): (r: Unit)
    ensures r.assertDirectoryNotEmpty == Some(value)
    ensures r.(assertDirectoryNotEmpty := u.assertDirectoryNotEmpty) == u
  {
    u.(assertDirectoryNotEmpty := Some(value))
  }

  function SetAssertFileNotEmpty(u: Unit, value: string): (r: Unit)
    ensures r.assertFileNotEmpty == Some(value)
    ensures r.(assertFileNotEmpty := u.assertFileNotEmpty) == u
  {
    u.(assertFileNotEmpty := Some(value))
  }

  function SetAssertFileIsExecutable(u: Unit, value: string): (r: Unit)
    ensures r.assertFileIsExecutable == Some(value)
    ensures r.(assertFileIsExecutable := u.assertFileIsExecutable) == u
  {
    u.(assertFileIsExecutable := Some(value))
  }

  function SetAssertUser(u: Unit, value: string): (r: Unit)
    ensures r.assertUser == Some(value)
    ensures r.(assertUser := u.assertUser) == u
  {
    u.(assertUser := Some(value))
  }

  function SetAssertGroup(u: Unit, value: string): (r: Unit)
    ensures r.assertGroup == Some(value)
    ensures r.(assertGroup := u.assertGroup) == u
  {
    u.(assertGroup := Some(value))
  }

  function SetAssertControlGroupController(u: Unit, value: seq<string>): (r: Unit)
    ensures r.assertControlGroupController == Some(value)
    ensures r.(assertControlGroupController := u.assertControlGroupController) == u
  {
    u.(assertControlGroupController := Some(value))
  }

  function SetAssertMemory(u: Unit, value: string): (r: Unit)
    ensures r.assertMemory == Some(value)
    ensures r.(assertMemory := u.assertMemory) == u
  {
    u.(assertMemory := Some(value))
  }

  function SetAssertCpus(u: Unit, value: string): (r: Unit)
    ensures r.assertCpus == Some(value)
    ensures r.(assertCpus := u.assertCpus) == u
  {
    u.(assertCpus := Some(value))
  }

  function SetAssertCpuFeature(u: Unit, value: seq<string>): (r: Unit)
    ensures r.assertCpuFeature == Some(value)
    ensures r.(assertCpuFeature := u.assertCpuFeature) == u
  {
    u.(assertCpuFeature := Some(value))
  }

  function SetAssertOsRelease(u: Unit, value: string): (r: Unit)
    ensures r.assertOsRelease == Some(value)
    ensures r.(assertOsRelease := u.assertOsRelease) == u
  {
    u.(assertOsRelease := Some(value))
  }

  function SetAssertMemoryPressure(u: Unit, value: string): (r: Unit)
    ensures r.assertMemoryPressure == Some(value)
    ensures r.(assertMemoryPressure := u.assertMemoryPressure) == u
  {
    u.(assertMemoryPressure := Some(value))
  }

  function SetAssertCpuPressure(u: Unit, value: string): (r: Unit)
    ensures r.assertCpuPressure == Some(value)
    ensures r.(assertCpuPressure := u.assertCpuPressure) == u
  {
    u.(assertCpuPressure := Some(value))
  }

  function SetAssertIoPressure(u: Unit, value: string): (r: Unit)
    ensures r.assertIoPressure == Some(value)
    ensures r.(assertIoPressure := u.assertIoPressure) == u
  {
    u.(assertIoPressure := Some(value))
  }
}
