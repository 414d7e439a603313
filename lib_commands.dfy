/**
  The command set of the portfolio's own terminal (`lib/terminal/commands`):
  fifteen commands whose handlers ignore their arguments and return a fixed
  action, looked up and suggested by the shared registry algorithms.
 */
module LibCommands {
  import opened Wrappers
  import opened Text
  import opened TerminalTypes
  import opened CommandRegistry

  /** The colours an animation frame may carry. */
  datatype FrameColor = Cyan | Green | Yellow | Red | Blue | Magenta

  /** One frame of an animation; its delay is timing only and is not kept. */
  datatype ColoredFrame = ColoredFrame(content: string, color: Option<FrameColor>)

  /** `CommandAction`. */
  datatype Action =
    | OutputAction(payload: string)
    | ClearAction
    | ExitAction
    | ConnectAiAction
    | DisconnectAiAction
    | AnimateAction(lines: seq<string>)
    | AnimateFrames(frames: seq<ColoredFrame>)

  /** The entries of `commands`, in key order. */
  datatype LibCommand =
    | HelpCmd | WhoamiCmd | StackCmd | ExperienceCmd | ProjectsCmd | EducationCmd | IotCmd
    | ContactCmd | ArchitectureCmd | DeployCmd | ClearCmd | ExitCmd | ConnectAiCmd
    | DisconnectAiCmd | AiCmd
  {
    /** The command's position in `Registry`. */
    function Index(): (k: nat)
      ensures k < RegistrySize
    {
      match this
      case HelpCmd => 0 case WhoamiCmd => 1 case StackCmd => 2 case ExperienceCmd => 3
      case ProjectsCmd => 4 case EducationCmd => 5 case IotCmd => 6 case ContactCmd => 7
      case ArchitectureCmd => 8 case DeployCmd => 9 case ClearCmd => 10 case ExitCmd => 11
      case ConnectAiCmd => 12 case DisconnectAiCmd => 13 case AiCmd => 14
    }
  }

  const RegistrySize: nat := 15

  const Registry: seq<CommandInfo> := [
    CommandInfo("help", []),
    CommandInfo("whoami", []),
    CommandInfo("stack", []),
    CommandInfo("experience", []),
    CommandInfo("projects", []),
    CommandInfo("education", []),
    CommandInfo("iot", []),
    CommandInfo("contact", []),
    CommandInfo("architecture", []),
    CommandInfo("deploy", []),
    CommandInfo("clear", []),
    CommandInfo("exit", []),
    CommandInfo("connect ai", ["connect-ai"]),
    CommandInfo("disconnect ai", ["disconnect-ai", "exit ai"]),
    CommandInfo("ai", [])
  ]

  /** The command at registry position `k`. */
  function CommandAt(k: nat): (c: LibCommand)
    requires k < RegistrySize
    ensures c.Index() == k
  {
    match k
    case 0 => HelpCmd case 1 => WhoamiCmd case 2 => StackCmd case 3 => ExperienceCmd
    case 4 => ProjectsCmd case 5 => EducationCmd case 6 => IotCmd case 7 => ContactCmd
    case 8 => ArchitectureCmd case 9 => DeployCmd case 10 => ClearCmd case 11 => ExitCmd
    case 12 => ConnectAiCmd case 13 => DisconnectAiCmd case _ => AiCmd
  }

  // The fixed payloads, represented by their title line, and the first
  // frames of the two animations.
  const HelpBanner := "┌─ CYBERPUNK TERMINAL HELP ──────────────┐"
  const ProfileBanner := "│           USER PROFILE              │"
  const StackBanner := "┌─ TECHNOLOGY STACK ─────────────────────┐"
  const ExperienceBanner := "┌─ PROFESSIONAL EXPERIENCE ──────────────┐"
  const ProjectsBanner := "┌─ PROJECT PORTFOLIO ────────────────────┐"
  const EducationBanner := "┌─ EDUCATIONAL BACKGROUND ───────────────┐"
  const IotBanner := "┌─ IOT EXPERTISE ────────────────────────┐"
  const ContactBanner := "┌─ CONTACT INFORMATION ──────────────────┐"
  const ArchitectureFrame := ColoredFrame("Initializing system topology scan...", Some(Cyan))
  const DeployFrame := ColoredFrame("Initializing deployment sequence...", Some(Cyan))

  /** What a command returns; every handler ignores its arguments.  The
      three AI commands connect or disconnect, `clear` clears, `exit` exits,
      the two animations play frames and everything else prints. */
  function ActionOf(c: LibCommand): (a: Action)
    ensures a.ConnectAiAction? <==> c.ConnectAiCmd? || c.AiCmd?
    ensures a.DisconnectAiAction? <==> c.DisconnectAiCmd?
    ensures a.ClearAction? <==> c.ClearCmd?
    ensures a.ExitAction? <==> c.ExitCmd?
    ensures a.AnimateFrames? <==> c.ArchitectureCmd? || c.DeployCmd?
    ensures !a.AnimateAction?
  {
    match c
    case HelpCmd => OutputAction(HelpBanner)
    case WhoamiCmd => OutputAction(ProfileBanner)
    case StackCmd => OutputAction(StackBanner)
    case ExperienceCmd => OutputAction(ExperienceBanner)
    case ProjectsCmd => OutputAction(ProjectsBanner)
    case EducationCmd => OutputAction(EducationBanner)
    case IotCmd => OutputAction(IotBanner)
    case ContactCmd => OutputAction(ContactBanner)
    case ArchitectureCmd => AnimateFrames([ArchitectureFrame])
    case DeployCmd => AnimateFrames([DeployFrame])
    case ClearCmd => ClearAction
    case ExitCmd => ExitAction
    case ConnectAiCmd => ConnectAiAction
    case DisconnectAiCmd => DisconnectAiAction
    case AiCmd => ConnectAiAction
  }

  /** `findCommand`: the command a typed line selects. */
  function Lookup(line: string): (r: Option<LibCommand>)
    ensures r.Some? ==> Answers(Registry[r.value.Index()], Normalize(line))
  {
    match Find(Registry, line)
    case None => None
    case Some(k) => Some(CommandAt(k))
  }

  /** A line finds a command exactly when some entry answers to it. */
  lemma LookupComplete(line: string)
    ensures Lookup(line).Some? <==> exists j :: 0 <= j < |Registry| && Answers(Registry[j], Normalize(line))
  {
    FindComplete(Registry, line);
  }

  /** `getCommandSuggestions`: at most five names. */
  function CommandSuggestions(input: string): (r: seq<string>)
    ensures |r| <= 5
    ensures forall x :: x in r ==> StartsWith(x, Lower(input))
  {
    Suggestions(Registry, input, 5)
  }

  /** `Lookup` selects the command at the position `Find` reports. */
  lemma LookupAt(line: string, k: nat)
    requires k < RegistrySize && Find(Registry, line) == Some(k)
    ensures Lookup(line) == Some(CommandAt(k))
  {
  }

  /** No entry before the last is keyed `ai`. */
  lemma OnlyLastKeyedAi()
    ensures forall j :: 0 <= j < 14 ==> Registry[j].name != "ai"
  {
    assert Registry[0].name == "help";
  }

  /** No entry before `disconnect ai` has that key. */
  lemma OnlyOneKeyedDisconnect()
    ensures forall j :: 0 <= j < 13 ==> Registry[j].name != "disconnect ai"
  {
    assert Registry[0].name == "help";
  }

  /** No entry is keyed by one of the AI aliases, and only the two AI
      entries carry aliases. */
  lemma AliasesAreNotKeys()
    ensures forall j :: 0 <= j < RegistrySize ==>
      Registry[j].name != "connect-ai" && Registry[j].name != "exit ai" && Registry[j].name != "disconnect-ai"
    ensures forall j :: 0 <= j < 12 ==> Registry[j].aliases == []
  {
    assert Registry[0].name == "help";
  }

  /** Whatever normalises to `ai` (` AI `, say) resolves by key to the
      `ai` command (which connects, as `ActionOf` says). */
  lemma AiResolvesByKey(line: string)
    requires Normalize(line) == "ai"
    ensures Lookup(line) == Some(AiCmd)
  {
    AiFoundByKey(line);
    LookupAt(line, 14);
  }

  lemma AiFoundByKey(line: string)
    requires Normalize(line) == "ai"
    ensures Find(Registry, line) == Some(14)
  {
    OnlyLastKeyedAi();
    FindByName(Registry, line, 14);
  }

  /** Whatever normalises to `disconnect ai` resolves by key to that
      command (which disconnects). */
  lemma DisconnectResolvesByKey(line: string)
    requires Normalize(line) == "disconnect ai"
    ensures Lookup(line) == Some(DisconnectAiCmd)
  {
    DisconnectFoundByKey(line);
    LookupAt(line, 13);
  }

  lemma DisconnectFoundByKey(line: string)
    requires Normalize(line) == "disconnect ai"
    ensures Find(Registry, line) == Some(13)
  {
    OnlyOneKeyedDisconnect();
    FindByName(Registry, line, 13);
  }

  /** Whatever normalises to `connect-ai` resolves as an alias of
      `connect ai` (which connects). */
  lemma ConnectAliasResolves(line: string)
    requires Normalize(line) == "connect-ai"
    ensures Lookup(line) == Some(ConnectAiCmd)
  {
    ConnectAliasFound(line);
    LookupAt(line, 12);
  }

  lemma ConnectAliasFound(line: string)
    requires Normalize(line) == "connect-ai"
    ensures Find(Registry, line) == Some(12)
  {
    AliasesAreNotKeys();
    FindByAlias(Registry, line, 12);
  }

  /** Whatever normalises to `exit ai` or `disconnect-ai` resolves as an
      alias of `disconnect ai` (which disconnects). */
  lemma DisconnectAliasesResolve(line: string)
    requires Normalize(line) == "exit ai" || Normalize(line) == "disconnect-ai"
    ensures Lookup(line) == Some(DisconnectAiCmd)
  {
    DisconnectAliasFound(line);
    LookupAt(line, 13);
  }

  lemma DisconnectAliasFound(line: string)
    requires Normalize(line) == "exit ai" || Normalize(line) == "disconnect-ai"
    ensures Find(Registry, line) == Some(13)
  {
    AliasesAreNotKeys();
    FindByAlias(Registry, line, 13);
  }
}
