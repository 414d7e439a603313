/**
  The security-sandbox command set (`cyberpunkCommands`): the sandbox's own
  commands, with the file-system commands spread in after them, and the
  privilege state (`systemState`) that `sudo elevate`, `enable firewall` and
  `system status` change.  The state is a small object whose fields the
  handlers assign; each handler is proved against a pure transition
  (`Next`) and a pure answer (`Respond`), and the properties of the
  privilege machine are proved about those.
 */
module CyberpunkCommands {
  import opened Wrappers
  import opened Text
  import opened TerminalTypes
  import opened CommandRegistry
  import FsCommands

  // ------------------------------------------------------------- state

  datatype AccessLevel = Visitor | Administrator

  function LevelName(a: AccessLevel): string
  {
    match a
    case Visitor => "Visitor"
    case Administrator => "Administrator"
  }

  /** The fields of `systemState` that commands read and write. */
  datatype SystemSnapshot = SystemSnapshot(accessLevel: AccessLevel, isFirewallActive: bool, isMonitoringActive: bool)

  const InitialState := SystemSnapshot(Visitor, false, false)

  /** The firewall is only ever switched on by an administrator. */
  predicate Secure(s: SystemSnapshot)
  {
    s.isFirewallActive ==> s.accessLevel.Administrator?
  }

  /** `Partial<typeof systemState>`: the fields a sync supplies. */
  datatype SystemPatch = SystemPatch(
    accessLevel: Option<AccessLevel>, isFirewallActive: Option<bool>, isMonitoringActive: Option<bool>)

  /** `Object.assign(systemState, patch)`. */
  function Apply(s: SystemSnapshot, p: SystemPatch): SystemSnapshot
  {
    SystemSnapshot(
      p.accessLevel.GetOr(s.accessLevel),
      p.isFirewallActive.GetOr(s.isFirewallActive),
      p.isMonitoringActive.GetOr(s.isMonitoringActive))
  }

  /** The patch that supplies every field of `t`. */
  function PatchOf(t: SystemSnapshot): SystemPatch
  {
    SystemPatch(Some(t.accessLevel), Some(t.isFirewallActive), Some(t.isMonitoringActive))
  }

  /** A sync overwrites exactly the fields it supplies: an empty patch
      changes nothing, a full one installs its values, applying a patch
      twice is applying it once, and a later patch wins field by field. */
  lemma ApplyProperties(s: SystemSnapshot, t: SystemSnapshot, p: SystemPatch, q: SystemPatch)
    ensures Apply(s, SystemPatch(None, None, None)) == s
    ensures Apply(s, PatchOf(t)) == t
    ensures Apply(Apply(s, p), p) == Apply(s, p)
    ensures q.accessLevel.Some? ==> Apply(Apply(s, p), q).accessLevel == q.accessLevel.value
    ensures q.accessLevel.None? ==> Apply(Apply(s, p), q).accessLevel == Apply(s, p).accessLevel
  {
  }

  // ---------------------------------------------------------- commands

  /** The entries of `cyberpunkCommands`, in key order. */
  datatype CyberCommand =
    | Help | SudoElevate | ScanNetwork | SystemStatus | ListDevices | PingEsp32 | ViewLogs
    | EnableFirewall | SecurityScan | AttackSimulation | Whoami | Stack | Experience
    | Architecture | Iot | Deploy | ClearScreen | ExitSandbox | ConnectAi | DisconnectAi
    | Fs(command: FsCommands.FsCommand)
  {
    /** The command's position in `Registry`. */
    function Index(): (k: nat)
      ensures k < RegistrySize
      ensures Fs? <==> k >= OwnCount
    {
      match this
      case Help => 0 case SudoElevate => 1 case ScanNetwork => 2 case SystemStatus => 3
      case ListDevices => 4 case PingEsp32 => 5 case ViewLogs => 6 case EnableFirewall => 7
      case SecurityScan => 8 case AttackSimulation => 9 case Whoami => 10 case Stack => 11
      case Experience => 12 case Architecture => 13 case Iot => 14 case Deploy => 15
      case ClearScreen => 16 case ExitSandbox => 17 case ConnectAi => 18 case DisconnectAi => 19
      case Fs(c) => OwnCount + c.Index()
    }

    /** The commands that refuse to run below Administrator. */
    predicate AdminOnly()
    {
      EnableFirewall? || SecurityScan? || AttackSimulation?
    }
  }

  /** The sandbox's own entries, in key order. */
  const OwnEntries: seq<CommandInfo> := [
    CommandInfo("help", []),
    CommandInfo("sudo elevate", []),
    CommandInfo("scan network", []),
    CommandInfo("system status", []),
    CommandInfo("list devices", []),
    CommandInfo("ping esp32", []),
    CommandInfo("view logs", []),
    CommandInfo("enable firewall", []),
    CommandInfo("security scan", []),
    CommandInfo("show attack simulation", []),
    CommandInfo("whoami", []),
    CommandInfo("stack", []),
    CommandInfo("experience", []),
    CommandInfo("architecture", []),
    CommandInfo("iot", []),
    CommandInfo("deploy", []),
    CommandInfo("clear", []),
    CommandInfo("exit", []),
    CommandInfo("connect ai", ["ai"]),
    CommandInfo("disconnect ai", ["exit ai"])
  ]

  /** The whole registry: the file-system commands are spread in last. */
  const Registry: seq<CommandInfo> := OwnEntries + FsCommands.Registry

  const OwnCount: nat := 20
  const RegistrySize: nat := 37

  /** The sizes of the two parts of the registry. */
  lemma RegistryShape()
    ensures |OwnEntries| == OwnCount && |FsCommands.Registry| == RegistrySize - OwnCount
    ensures |Registry| == RegistrySize
  {
  }

  /** The sandbox's own command at position `k`, in two halves. */
  function OwnCommandAt(k: nat): (c: CyberCommand)
    requires k < OwnCount
    ensures c.Index() == k
  {
    if k < 10 then
      match k
      case 0 => Help case 1 => SudoElevate case 2 => ScanNetwork case 3 => SystemStatus
      case 4 => ListDevices case 5 => PingEsp32 case 6 => ViewLogs case 7 => EnableFirewall
      case 8 => SecurityScan case _ => AttackSimulation
    else
      match k
      case 10 => Whoami case 11 => Stack case 12 => Experience case 13 => Architecture
      case 14 => Iot case 15 => Deploy case 16 => ClearScreen case 17 => ExitSandbox
      case 18 => ConnectAi case _ => DisconnectAi
  }

  /** The command at registry position `k`. */
  function CommandAt(k: nat): (c: CyberCommand)
    requires k < RegistrySize
    ensures c.Index() == k
  {
    if k < OwnCount then OwnCommandAt(k) else Fs(FsCommands.CommandAt(k - OwnCount))
  }

  /** Every file-system command keeps its entry, after the sandbox's own,
      so it takes part in lookup and in suggestions. */
  lemma FsCommandsSpreadLast(k: nat)
    requires k < |FsCommands.Registry|
    ensures Registry[OwnCount + k] == FsCommands.Registry[k]
    ensures CommandAt(OwnCount + k) == Fs(FsCommands.CommandAt(k))
  {
    RegistryShape();
  }

  /** `findCyberpunkCommand`: the command a typed line selects. */
  function Lookup(line: string): (r: Option<CyberCommand>)
    ensures r.Some? ==> Answers(Registry[r.value.Index()], Normalize(line))
  {
    RegistryShape();
    match Find(Registry, line)
    case None => None
    case Some(k) => Some(CommandAt(k))
  }

  /** A line finds a command exactly when some entry answers to it. */
  lemma LookupComplete(line: string)
    ensures Lookup(line).Some? <==> exists j :: 0 <= j < |Registry| && Answers(Registry[j], Normalize(line))
  {
    FindComplete(Registry, line);
  }

  /** `getCyberpunkCommandSuggestions`: at most eight names. */
  function CommandSuggestions(input: string): (r: seq<string>)
    ensures |r| <= 8
    ensures forall x :: x in r ==> StartsWith(x, Lower(input))
  {
    Suggestions(Registry, input, 8)
  }

  /** The file-system keys and aliases hold no space. */
  lemma FsNamesHaveNoSpace(k: nat)
    requires k < |FsCommands.Registry|
    ensures ' ' !in FsCommands.Registry[k].name
    ensures forall a :: a in FsCommands.Registry[k].aliases ==> ' ' !in a
  {
  }

  /** A file-system command found for a trimmed line was typed without a
      space, so it is handed no arguments: `cat about.txt` finds nothing,
      and a bare `cat` gets the usage error. */
  lemma FsCommandsGetNoArguments(line: string)
    requires Trim(line) == line
    requires Lookup(line).Some? && Lookup(line).value.Fs?
    ensures ' ' !in line
    ensures Split(line, ' ')[1..] == []
  {
    RegistryShape();
    var k := Find(Registry, line).value;
    FsNamesHaveNoSpace(k - OwnCount);
    FsCommandsSpreadLast(k - OwnCount);
    WholeLineLookup(Registry, line);
  }

  // ----------------------------------------------------------- answers

  const AccessDenied := "❌ Access denied. Administrator privileges required.\nUse \"sudo elevate\" to gain access."
  const AlreadyElevated := "🔐 Already elevated to Administrator level."
  const FirewallAlreadyActive := "🛡️  Firewall is already active."

  const ElevationFrames: seq<AnimationFrame> := [
    Frame("🔐 Requesting privilege escalation...", Some(SystemLine)),
    Frame("🔍 Verifying credentials...", Some(SystemLine)),
    Frame("✅ Access granted!", Some(SystemLine)),
    Frame("", None),
    Frame("🛡️  Access level: Administrator", Some(SystemLine)),
    Frame("🔓 Advanced security commands unlocked.", Some(SystemLine))
  ]

  const FirewallFrames: seq<AnimationFrame> := [
    Frame("🛡️  Initializing firewall systems...", Some(SystemLine)),
    Frame("🔧 Loading security rules...", Some(SystemLine)),
    Frame("🌐 Configuring network filters...", Some(SystemLine)),
    Frame("👁️  Starting intrusion detection...", Some(SystemLine)),
    Frame("", None),
    Frame("✅ Firewall engaged.", Some(SystemLine)),
    Frame("🔍 Intrusion detection active.", Some(SystemLine)),
    Frame("⚠️  System will now monitor for threats.", Some(SystemLine))
  ]

  /** `sudo elevate`'s answer. */
  function ElevateAnswer(s: SystemSnapshot): (r: CommandResult)
    ensures r.Animated? <==> s.accessLevel.Visitor?
  {
    if s.accessLevel.Administrator? then System(AlreadyElevated) else Animated(ElevationFrames)
  }

  /** `enable firewall`'s answer. */
  function FirewallAnswer(s: SystemSnapshot): (r: CommandResult)
    ensures r.Animated? <==> s.accessLevel.Administrator? && !s.isFirewallActive
  {
    if s.accessLevel.Visitor? then Error(AccessDenied)
    else if s.isFirewallActive then System(FirewallAlreadyActive)
    else Animated(FirewallFrames)
  }

  /** The answer of an Administrator-only command whose animation is `frames`. */
  function GuardedAnswer(s: SystemSnapshot, frames: seq<AnimationFrame>): CommandResult
  {
    if s.accessLevel.Visitor? then Error(AccessDenied) else Animated(frames)
  }

  /** The state-dependent lines of `system status` (the metrics are random). */
  function StatusReport(s: SystemSnapshot): string
  {
    "🔒 Firewall: " + (if s.isFirewallActive then "ACTIVE" else "INACTIVE") +
    "\n🛡️  Access Level: " + LevelName(s.accessLevel)
  }

  /** The state-dependent lines of `whoami`. */
  function WhoamiReport(s: SystemSnapshot, cursor: string): string
  {
    "Level:    " + PadEnd(LevelName(s.accessLevel), 12) +
    "\nClearance: " + (if s.accessLevel.Administrator? then "ELEVATED" else "STANDARD") +
    "\nDirectory: " + PadEnd(cursor, 11)
  }

  // The fixed banners, represented by their title line, and the first
  // frames of the fixed animations.
  const HelpBanner := "┌─ CYBERPUNK SECURITY SANDBOX HELP ──────┐"
  const DevicesBanner := "┌─ CONNECTED IOT DEVICES ────────────────┐"
  const LogsBanner := "┌─ SYSTEM LOGS (Last 10 entries) ────────┐"
  const StackBanner := "┌─ CYBERPUNK TECH STACK ─────────────────┐"
  const ExperienceBanner := "┌─ PROFESSIONAL JOURNEY ─────────────────┐"
  const IotBanner := "┌─ IOT CYBERPUNK ARSENAL ────────────────┐"
  const ScanFrame := Frame("🔍 Scanning 192.168.0.0/24...", Some(SystemLine))
  const PingFrame := Frame("📡 Pinging ESP32 Sensor Node...", Some(SystemLine))
  const ArchitectureFrame := Frame("🏗️  Initializing system architecture...", Some(SystemLine))
  const DeployFrame := Frame("🚀 Initializing deployment sequence...", Some(SystemLine))
  const SecurityScanFrame := Frame("🔍 Initiating comprehensive security scan...", Some(SystemLine))
  const AttackFrame := Frame("⚠️  Simulating DDoS attempt...", Some(ErrorLine))

  /** The answers that depend on nothing: banners, animations and the
      terminal actions.  None of them is an error. */
  function FixedAnswer(c: CyberCommand): (r: CommandResult)
    requires !c.Fs? && !c.AdminOnly() && !c.SudoElevate? && !c.SystemStatus? && !c.Whoami?
    ensures !r.Error?
  {
    match c
    case Help => Output(HelpBanner)
    case ScanNetwork => Animated([ScanFrame])
    case ListDevices => Output(DevicesBanner)
    case PingEsp32 => Animated([PingFrame])
    case ViewLogs => Output(LogsBanner)
    case Stack => Output(StackBanner)
    case Experience => Output(ExperienceBanner)
    case Architecture => Animated([ArchitectureFrame])
    case Iot => Output(IotBanner)
    case Deploy => Animated([DeployFrame])
    case ClearScreen => Clear
    case ExitSandbox => Exit
    case ConnectAi => AiConnect
    case DisconnectAi => AiDisconnect
  }

  /** What a sandbox command answers in state `s` with the file-system cursor
      at `cursor`: only the Administrator-only commands ever refuse, and they
      refuse exactly when the user is not an administrator. */
  function Respond(s: SystemSnapshot, cursor: string, c: CyberCommand): (r: CommandResult)
    requires !c.Fs?
    ensures r.Error? <==> c.AdminOnly() && s.accessLevel.Visitor?
    ensures r.Error? ==> r.content == AccessDenied
  {
    if c.SudoElevate? then ElevateAnswer(s)
    else if c.EnableFirewall? then FirewallAnswer(s)
    else if c.SecurityScan? then GuardedAnswer(s, [SecurityScanFrame])
    else if c.AttackSimulation? then GuardedAnswer(s, [AttackFrame])
    else if c.SystemStatus? then Output(StatusReport(s))
    else if c.Whoami? then Output(WhoamiReport(s, cursor))
    else FixedAnswer(c)
  }

  /** The state after command `c`.  No command demotes the user or switches
      the firewall or monitoring off; only three commands change anything;
      an Administrator-only command leaves a visitor's state alone; and the
      firewall stays reserved to administrators. */
  function Next(s: SystemSnapshot, c: CyberCommand): (t: SystemSnapshot)
    ensures s.accessLevel.Administrator? ==> t.accessLevel.Administrator?
    ensures s.isFirewallActive ==> t.isFirewallActive
    ensures s.isMonitoringActive ==> t.isMonitoringActive
    ensures t != s ==> c.SudoElevate? || c.EnableFirewall? || c.SystemStatus?
    ensures c.AdminOnly() && s.accessLevel.Visitor? ==> t == s
    ensures Secure(s) ==> Secure(t)
  {
    if c.SudoElevate? then s.(accessLevel := Administrator)
    else if c.EnableFirewall? then (if s.accessLevel.Administrator? then s.(isFirewallActive := true) else s)
    else if c.SystemStatus? then s.(isMonitoringActive := true)
    else s
  }

  /** The state after a series of commands. */
  function NextAll(s: SystemSnapshot, cs: seq<CyberCommand>): SystemSnapshot
    decreases |cs|
  {
    if cs == [] then s else NextAll(Next(s, cs[0]), cs[1..])
  }

  /** The firewall stays reserved to administrators whatever is run. */
  lemma {:induction false} SecureAlways(s: SystemSnapshot, cs: seq<CyberCommand>)
    requires Secure(s)
    ensures Secure(NextAll(s, cs))
    decreases |cs|
  {
    if cs != [] {
      SecureAlways(Next(s, cs[0]), cs[1..]);
    }
  }

  /** Without `sudo elevate` a visitor stays a visitor and never gets the
      firewall switched on. */
  lemma {:induction false} FirewallNeedsElevation(s: SystemSnapshot, cs: seq<CyberCommand>)
    requires s.accessLevel.Visitor? && !s.isFirewallActive
    requires SudoElevate !in cs
    ensures NextAll(s, cs).accessLevel.Visitor? && !NextAll(s, cs).isFirewallActive
    decreases |cs|
  {
    if cs != [] {
      assert cs[0] != SudoElevate;
      FirewallNeedsElevation(Next(s, cs[0]), cs[1..]);
    }
  }

  /** Elevating twice is elevating once; the second time answers that the
      user already is an administrator.  Likewise for the firewall. */
  lemma ElevateAndFirewallIdempotent(s: SystemSnapshot)
    ensures Next(Next(s, SudoElevate), SudoElevate) == Next(s, SudoElevate)
    ensures ElevateAnswer(Next(s, SudoElevate)) == System(AlreadyElevated)
    ensures Next(Next(s, EnableFirewall), EnableFirewall) == Next(s, EnableFirewall)
    ensures s.accessLevel.Administrator? ==>
      FirewallAnswer(Next(s, EnableFirewall)) == System(FirewallAlreadyActive)
  {
  }

  /** `systemState`: the object the handlers assign to. */
  class SystemState {
    var accessLevel: AccessLevel
    var isFirewallActive: bool
    var isMonitoringActive: bool

    function Current(): SystemSnapshot
      reads this
    {
      SystemSnapshot(accessLevel, isFirewallActive, isMonitoringActive)
    }

    constructor ()
      ensures Current() == InitialState
    {
      accessLevel := Visitor;
      isFirewallActive := false;
      isMonitoringActive := false;
    }

    /** `syncSystemState`: overwrite the supplied fields. */
    method Sync(p: SystemPatch)
      modifies this
      ensures Current() == Apply(old(Current()), p)
    {
      if p.accessLevel.Some? {
        accessLevel := p.accessLevel.value;
      }
      if p.isFirewallActive.Some? {
        isFirewallActive := p.isFirewallActive.value;
      }
      if p.isMonitoringActive.Some? {
        isMonitoringActive := p.isMonitoringActive.value;
      }
    }

    /** `getSystemState`: a copy, which later changes to the object do not reach. */
    method Get() returns (s: SystemSnapshot)
      ensures s == Current()
      ensures Secure(Current()) <==> Secure(s)
    {
      s := SystemSnapshot(accessLevel, isFirewallActive, isMonitoringActive);
    }

    /** `sudo elevate`. */
    method Elevate() returns (r: CommandResult)
      modifies this
      ensures r == ElevateAnswer(old(Current()))
      ensures Current() == Next(old(Current()), SudoElevate)
    {
      if accessLevel.Administrator? {
        return System(AlreadyElevated);
      }
      accessLevel := Administrator;
      r := Animated(ElevationFrames);
    }

    /** `enable firewall`. */
    method EnableFirewall() returns (r: CommandResult)
      modifies this
      ensures r == FirewallAnswer(old(Current()))
      ensures Current() == Next(old(Current()), CyberCommand.EnableFirewall)
    {
      if accessLevel.Visitor? {
        return Error(AccessDenied);
      }
      if isFirewallActive {
        return System(FirewallAlreadyActive);
      }
      isFirewallActive := true;
      r := Animated(FirewallFrames);
    }

    /** `system status`: switches monitoring on and reports. */
    method Status() returns (r: CommandResult)
      modifies this
      ensures r == Output(StatusReport(old(Current())))
      ensures Current() == Next(old(Current()), SystemStatus)
    {
      isMonitoringActive := true;
      r := Output(StatusReport(Current()));
    }
  }

  /** Runs one of the sandbox's own commands against the privilege state:
      it answers as `Respond` says and moves the state as `Next` says. */
  method Answer(sys: SystemState, cursor: string, c: CyberCommand) returns (r: CommandResult)
    requires !c.Fs?
    modifies sys
    ensures r == Respond(old(sys.Current()), cursor, c)
    ensures sys.Current() == Next(old(sys.Current()), c)
  {
    if c.SudoElevate? {
      r := sys.Elevate();
    } else if c.EnableFirewall? {
      r := sys.EnableFirewall();
    } else if c.SystemStatus? {
      r := sys.Status();
    } else {
      r := Respond(sys.Current(), cursor, c);
    }
  }
}
