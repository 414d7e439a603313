/**
  The session behind the portfolio's own terminal (`useTerminal`): an
  unbounded log, the command history with its recall index, the AI-mode and
  booting flags.  A typed line is logged and recorded, then sent to the AI
  when AI mode is on and the socket is open, and otherwise looked up in the
  portfolio's command set, whose action is carried out.

  The socket is a parameter `wsOpen` (whether it is open), and its `onopen`
  handler a method the caller invokes; what is sent over it and its other
  handlers are not modelled.
 */
module PortfolioTerminal {
  import opened Wrappers
  import opened Text
  import opened TerminalTypes
  import opened Session
  import CommandRegistry
  import LibCommands

  // --------------------------------------------------------- the replies

  const AlreadyConnected := "AI: Already connected to AI assistant."
  const Establishing := "Establishing AI connection..."
  const Established := "✅ AI: Connection established."
  const Greeting := "AI: Hello! I'm Amit's AI assistant. I can help you learn about his work, skills, projects, and experience. What would you like to know?"
  const ModeTip := "💡 Tip: You're now in AI mode. All your messages will be sent to the AI. Type \"disconnect ai\" to return to terminal mode."
  const Disconnected := "🔌 AI: Disconnected from AI assistant. Returning to terminal mode."
  const Thinking := "AI: Thinking..."
  const Exiting := "🚪 Exiting system mode..."
  const NotRecognizedHead := "❌ Command not recognized: "

  /** The entry kind of an animation frame: green frames are system lines,
      red ones errors, yellow ones AI lines, and any other colour or none
      gives an output line. */
  function FrameKind(color: Option<LibCommands.FrameColor>): (k: EntryKind)
    ensures k == SystemLine <==> color == Some(LibCommands.Green)
    ensures k == ErrorLine <==> color == Some(LibCommands.Red)
    ensures k == AiLine <==> color == Some(LibCommands.Yellow)
    ensures k != InputLine
  {
    if color == Some(LibCommands.Green) then SystemLine
    else if color == Some(LibCommands.Red) then ErrorLine
    else if color == Some(LibCommands.Yellow) then AiLine
    else OutputLine
  }

  /** One entry per frame, in order. */
  function FrameEntries(frames: seq<LibCommands.ColoredFrame>): (r: seq<Entry>)
    ensures |r| == |frames|
    ensures forall i :: 0 <= i < |frames| ==>
      r[i].kind == FrameKind(frames[i].color) && r[i].content == frames[i].content
  {
    seq(|frames|, i requires 0 <= i < |frames| => Entry(FrameKind(frames[i].color), frames[i].content))
  }

  /** One output entry per line, in order. */
  function OutputEntries(lines: seq<string>): (r: seq<Entry>)
    ensures |r| == |lines|
    ensures forall i :: 0 <= i < |lines| ==> r[i].kind == OutputLine && r[i].content == lines[i]
  {
    seq(|lines|, i requires 0 <= i < |lines| => Entry(OutputLine, lines[i]))
  }

  /** The entry logged for a typed line. */
  function InputEntry(aiMode: bool, line: string): (e: Entry)
    ensures e.kind == InputLine
  {
    Entry(InputLine, (if aiMode then "AI>" else ">") + " " + line)
  }

  /** The answer to a line typed in AI mode while the socket is open: the
      typing indicator, unless the line disconnects. */
  function AiReply(line: string): (e: Entry)
    ensures e.kind == SystemLine
  {
    if IsDisconnectLine(line) then Entry(SystemLine, Disconnected) else Entry(SystemLine, Thinking)
  }

  /** The error for a line no command answers to, with suggestions for its
      first word. */
  function UnknownMessage(line: string): string
  {
    NotFoundMessage(NotRecognizedHead, line, LibCommands.CommandSuggestions(FirstToken(line)))
  }

  /** The entry `connectAI` logs before it opens a socket. */
  function ConnectEntry(wsOpen: bool): Entry
  {
    if wsOpen then Entry(OutputLine, AlreadyConnected) else Entry(SystemLine, Establishing)
  }

  /** The log after an action is carried out (`switch (action.type)`):
      `clear` empties it, and every other action only appends to it. */
  function Performed(h: seq<Entry>, a: LibCommands.Action, wsOpen: bool): (r: seq<Entry>)
    ensures a.ClearAction? ==> r == []
    ensures !a.ClearAction? ==> |h| <= |r| && r[..|h|] == h
    ensures a.AnimateAction? ==> |r| == |h| + |a.lines|
    ensures a.AnimateFrames? ==> |r| == |h| + |a.frames|
    ensures !a.ClearAction? && !a.AnimateAction? && !a.AnimateFrames? ==> |r| == |h| + 1
  {
    match a
    case OutputAction(p) => h + [Entry(OutputLine, p)]
    case ClearAction => []
    case ExitAction => h + [Entry(SystemLine, Exiting)]
    case ConnectAiAction => h + [ConnectEntry(wsOpen)]
    case DisconnectAiAction => h + [Entry(SystemLine, Disconnected)]
    case AnimateAction(lines) => h + OutputEntries(lines)
    case AnimateFrames(frames) => h + FrameEntries(frames)
  }

  /** `getAutoComplete`: the first suggestion, when there is one. */
  function AutoComplete(input: string): (r: Option<string>)
    ensures r.Some? <==> LibCommands.CommandSuggestions(input) != []
    ensures r.Some? ==> r.value in LibCommands.CommandSuggestions(input) && StartsWith(r.value, Lower(input))
  {
    var s := LibCommands.CommandSuggestions(input);
    if |s| > 0 then Some(s[0]) else None
  }

  /** Both lines that leave AI mode, typed outside AI mode, select the
      `disconnect ai` command, so they leave AI mode either way. */
  lemma DisconnectLinesResolve(line: string)
    requires Trim(line) == line
    ensures IsDisconnectLine(line) ==> LibCommands.Lookup(line) == Some(LibCommands.DisconnectAiCmd)
  {
    CommandRegistry.NormalizeTrimmed(line);
    if Lower(line) == "disconnect ai" {
      LibCommands.DisconnectResolvesByKey(line);
    } else if Lower(line) == "exit ai" {
      LibCommands.DisconnectAliasesResolve(line);
    }
  }

  // --------------------------------------------------------- the session

  class Terminal {
    var history: seq<Entry>
    var currentInput: string
    var isAiMode: bool
    var isBooting: bool
    var commandHistory: seq<string>
    var historyIndex: int

    ghost predicate Valid()
      reads this
    {
      -1 <= historyIndex < |commandHistory|
    }

    /** Everything but the log and the AI-mode flag. */
    function Context(): (string, bool, seq<string>, int)
      reads this
    {
      (currentInput, isBooting, commandHistory, historyIndex)
    }

    /** The initial state: empty log and history, booting, terminal mode. */
    constructor ()
      ensures Valid()
      ensures history == [] && currentInput == "" && !isAiMode && isBooting
      ensures commandHistory == [] && historyIndex == -1
    {
      history := [];
      currentInput := "";
      isAiMode := false;
      isBooting := true;
      commandHistory := [];
      historyIndex := -1;
    }

    /** `addToHistory`: the log only grows, by exactly `e`. */
    method AddToHistory(e: Entry)
      requires Valid()
      modifies this
      ensures Valid()
      ensures history == old(history) + [e]
      ensures isAiMode == old(isAiMode) && Context() == old(Context())
    {
      history := history + [e];
    }

    /** `clearHistory`. */
    method ClearHistory()
      requires Valid()
      modifies this
      ensures Valid()
      ensures history == []
      ensures isAiMode == old(isAiMode) && Context() == old(Context())
    {
      history := [];
    }

    /** `setCurrentInput`. */
    method SetCurrentInput(input: string)
      requires Valid()
      modifies this
      ensures Valid()
      ensures currentInput == input
      ensures history == old(history) && isAiMode == old(isAiMode) && isBooting == old(isBooting)
      ensures commandHistory == old(commandHistory) && historyIndex == old(historyIndex)
    {
      currentInput := input;
    }

    /** `setBooting`. */
    method SetBooting(booting: bool)
      requires Valid()
      modifies this
      ensures Valid()
      ensures isBooting == booting
      ensures history == old(history) && isAiMode == old(isAiMode) && currentInput == old(currentInput)
      ensures commandHistory == old(commandHistory) && historyIndex == old(historyIndex)
    {
      isBooting := booting;
    }

    /** The part of `connectAI` before the socket is opened: AI mode is
        entered only once the socket opens. */
    method ConnectAi(wsOpen: bool)
      requires Valid()
      modifies this
      ensures Valid()
      ensures history == old(history) + [ConnectEntry(wsOpen)]
      ensures isAiMode == old(isAiMode) && Context() == old(Context())
    {
      if wsOpen {
        AddToHistory(Entry(OutputLine, AlreadyConnected));
      } else {
        AddToHistory(Entry(SystemLine, Establishing));
      }
    }

    /** The socket's `onopen`: AI mode, with a greeting and a tip. */
    method ConnectionOpened()
      requires Valid()
      modifies this
      ensures Valid()
      ensures isAiMode
      ensures history == old(history) + [Entry(SystemLine, Established), Entry(AiLine, Greeting), Entry(SystemLine, ModeTip)]
      ensures Context() == old(Context())
    {
      isAiMode := true;
      AddToHistory(Entry(SystemLine, Established));
      AddToHistory(Entry(AiLine, Greeting));
      AddToHistory(Entry(SystemLine, ModeTip));
    }

    /** `disconnectAI`: back to terminal mode. */
    method DisconnectAi()
      requires Valid()
      modifies this
      ensures Valid()
      ensures !isAiMode
      ensures history == old(history) + [Entry(SystemLine, Disconnected)]
      ensures Context() == old(Context())
    {
      isAiMode := false;
      AddToHistory(Entry(SystemLine, Disconnected));
    }

    /** `playAnimatedCommand`: one entry per frame, in order. */
    method PlayAnimatedCommand(frames: seq<LibCommands.ColoredFrame>)
      requires Valid()
      modifies this
      ensures Valid()
      ensures history == old(history) + FrameEntries(frames)
      ensures isAiMode == old(isAiMode) && Context() == old(Context())
    {
      var news := FrameEntries(frames);
      var k := 0;
      while k < |frames|
        invariant 0 <= k <= |frames|
        invariant Valid()
        invariant history == old(history) + news[..k]
        invariant isAiMode == old(isAiMode) && Context() == old(Context())
      {
        AddToHistory(Entry(FrameKind(frames[k].color), frames[k].content));
        assert news[..k + 1] == news[..k] + [news[k]];
        k := k + 1;
      }
      assert news[..|frames|] == news;
    }

    /** `animateOutput`: one output entry per line, in order. */
    method AnimateOutput(lines: seq<string>)
      requires Valid()
      modifies this
      ensures Valid()
      ensures history == old(history) + OutputEntries(lines)
      ensures isAiMode == old(isAiMode) && Context() == old(Context())
    {
      var news := OutputEntries(lines);
      var k := 0;
      while k < |lines|
        invariant 0 <= k <= |lines|
        invariant Valid()
        invariant history == old(history) + news[..k]
        invariant isAiMode == old(isAiMode) && Context() == old(Context())
      {
        AddToHistory(Entry(OutputLine, lines[k]));
        assert news[..k + 1] == news[..k] + [news[k]];
        k := k + 1;
      }
      assert news[..|lines|] == news;
    }

    /** The `switch (action.type)` of `executeCommand`; only `disconnect`
        changes the mode. */
    method Perform(a: LibCommands.Action, wsOpen: bool)
      requires Valid()
      modifies this
      ensures Valid()
      ensures history == Performed(old(history), a, wsOpen)
      ensures isAiMode == (old(isAiMode) && !a.DisconnectAiAction?)
      ensures Context() == old(Context())
    {
      match a
      case OutputAction(p) => AddToHistory(Entry(OutputLine, p));
      case ClearAction => ClearHistory();
      case ExitAction => AddToHistory(Entry(SystemLine, Exiting));
      case ConnectAiAction => ConnectAi(wsOpen);
      case DisconnectAiAction => DisconnectAi();
      case AnimateAction(lines) => AnimateOutput(lines);
      case AnimateFrames(frames) => PlayAnimatedCommand(frames);
    }

    /** Logs a non-empty line with the prompt of the current mode and
        records it in the command history. */
    method Record(line: string)
      requires Valid()
      modifies this
      ensures Valid()
      ensures history == old(history) + [InputEntry(old(isAiMode), line)]
      ensures commandHistory == old(commandHistory) + [line] && historyIndex == -1
      ensures currentInput == old(currentInput) && isBooting == old(isBooting) && isAiMode == old(isAiMode)
    {
      AddToHistory(InputEntry(isAiMode, line));
      commandHistory := commandHistory + [line];
      historyIndex := -1;
    }

    /** A line typed in AI mode while the socket is open: the disconnect
        lines disconnect, anything else shows the typing indicator. */
    method AiTurn(line: string)
      requires Valid()
      modifies this
      ensures Valid()
      ensures history == old(history) + [AiReply(line)]
      ensures isAiMode == (old(isAiMode) && !IsDisconnectLine(line))
      ensures Context() == old(Context())
    {
      if IsDisconnectLine(line) {
        DisconnectAi();
      } else {
        AddToHistory(Entry(SystemLine, Thinking));
      }
    }

    /** A line looked up in the command set: an unknown line logs one
        error; a known one has its action carried out.  Either way a
        disconnect line leaves AI mode. */
    method CommandTurn(line: string, wsOpen: bool)
      requires Valid() && Trim(line) == line
      modifies this
      ensures Valid()
      ensures Context() == old(Context())
      ensures LibCommands.Lookup(line).None? ==>
        history == old(history) + [Entry(ErrorLine, UnknownMessage(line))] && isAiMode == old(isAiMode)
      ensures LibCommands.Lookup(line).Some? ==>
        var a := LibCommands.ActionOf(LibCommands.Lookup(line).value);
        history == Performed(old(history), a, wsOpen) && isAiMode == (old(isAiMode) && !a.DisconnectAiAction?)
      ensures IsDisconnectLine(line) ==> !isAiMode
    {
      DisconnectLinesResolve(line);
      var found := LibCommands.Lookup(line);
      if found.None? {
        AddToHistory(Entry(ErrorLine, UnknownMessage(line)));
      } else {
        Perform(LibCommands.ActionOf(found.value), wsOpen);
      }
    }

    /** `executeCommand`.  A blank line changes nothing; any other line is
        logged and recorded, then sent to the AI when AI mode is on and the
        socket is open, and looked up in the command set otherwise, even in
        AI mode with the socket closed. */
    method ExecuteCommand(input: string, wsOpen: bool)
      requires Valid()
      modifies this
      ensures Valid()
      ensures Trim(input) == "" ==>
        history == old(history) && isAiMode == old(isAiMode) && Context() == old(Context())
      ensures Trim(input) != "" ==>
        commandHistory == old(commandHistory) + [Trim(input)] && historyIndex == -1 &&
        currentInput == old(currentInput) && isBooting == old(isBooting)
      ensures Trim(input) != "" && old(isAiMode) && wsOpen ==>
        history == old(history) + [InputEntry(true, Trim(input))] + [AiReply(Trim(input))] &&
        isAiMode == !IsDisconnectLine(Trim(input))
      ensures Trim(input) != "" && !(old(isAiMode) && wsOpen) && LibCommands.Lookup(Trim(input)).None? ==>
        history == old(history) + [InputEntry(old(isAiMode), Trim(input))] + [Entry(ErrorLine, UnknownMessage(Trim(input)))] &&
        isAiMode == old(isAiMode)
      ensures Trim(input) != "" && !(old(isAiMode) && wsOpen) && LibCommands.Lookup(Trim(input)).Some? ==>
        var a := LibCommands.ActionOf(LibCommands.Lookup(Trim(input)).value);
        history == Performed(old(history) + [InputEntry(old(isAiMode), Trim(input))], a, wsOpen) &&
        isAiMode == (old(isAiMode) && !a.DisconnectAiAction?)
      ensures Trim(input) != "" && IsDisconnectLine(Trim(input)) ==> !isAiMode
    {
      var line := Trim(input);
      if line == "" {
        return;
      }
      TrimIdempotent(input);
      Record(line);
      if isAiMode && wsOpen {
        AiTurn(line);
      } else {
        CommandTurn(line, wsOpen);
      }
    }

    /** `navigateHistory`: nothing happens on an empty history; otherwise
        the index moves as `NextIndex` says and the input shows the line
        recalled there. */
    method NavigateHistory(d: Direction)
      requires Valid()
      modifies this
      ensures Valid()
      ensures history == old(history) && commandHistory == old(commandHistory)
      ensures isAiMode == old(isAiMode) && isBooting == old(isBooting)
      ensures commandHistory == [] ==> historyIndex == old(historyIndex) && currentInput == old(currentInput)
      ensures commandHistory != [] ==>
        historyIndex == NextIndex(|commandHistory|, old(historyIndex), d) &&
        currentInput == Recalled(commandHistory, historyIndex)
    {
      if |commandHistory| == 0 {
        return;
      }
      historyIndex := NextIndex(|commandHistory|, historyIndex, d);
      SetCurrentInput(Recalled(commandHistory, historyIndex));
    }
  }
}
