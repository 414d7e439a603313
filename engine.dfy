/**
  The session behind the security-sandbox overlay (`useTerminalEngine`): a
  log of at most 200 entries, the command history with its recall index,
  the AI-mode flag and a mirror of the sandbox's privilege state.  A typed
  line is logged, recorded in the history, and then either answered as an
  AI message or looked up in the sandbox registry and run.

  The socket is a parameter `wsOpen` (whether it is open); messages sent to
  and received from it are not modelled.
 */
module TerminalEngine {
  import opened Wrappers
  import opened Text
  import opened TerminalTypes
  import opened Session
  import CyberpunkCommands
  import FsCommands
  import VirtualFileSystem

  /** `MAX_HISTORY`. */
  const MaxHistory: nat := 200

  // ------------------------------------------------------------- the log

  /** The newest `MaxHistory` entries of `es`, in order. */
  function Capped(es: seq<Entry>): (r: seq<Entry>)
    ensures |r| == if |es| <= MaxHistory then |es| else MaxHistory
  {
    if |es| > MaxHistory then es[|es| - MaxHistory..] else es
  }

  /** The log after `addEntry(e)`: `e` is the newest entry, and the oldest
      entry is dropped only when the log was already full. */
  function Appended(es: seq<Entry>, e: Entry): (r: seq<Entry>)
    ensures |r| == if |es| < MaxHistory then |es| + 1 else MaxHistory
    ensures r[|r| - 1] == e
    ensures r[..|r| - 1] == es[|es| - (|r| - 1)..]
  {
    var r := Capped(es + [e]);
    assert r == (es + [e])[|es| + 1 - |r|..];
    assert r[..|r| - 1] == es[|es| + 1 - |r|..];
    r
  }

  /** Entries appended one at a time, oldest first. */
  function AppendAll(es: seq<Entry>, news: seq<Entry>): seq<Entry>
  {
    if news == [] then es else Appended(AppendAll(es, news[..|news| - 1]), news[|news| - 1])
  }

  /** Capping after every append is the same as capping once at the end. */
  lemma CappedAppend(es: seq<Entry>, e: Entry)
    ensures Capped(Capped(es) + [e]) == Capped(es + [e])
  {
    var n := |es|;
    if n > MaxHistory {
      assert Capped(es) == es[n - MaxHistory..];
      assert (es[n - MaxHistory..] + [e])[1..] == es[n - MaxHistory + 1..] + [e];
      assert (es + [e])[n + 1 - MaxHistory..] == es[n - MaxHistory + 1..] + [e];
    }
  }

  /** A batch of entries leaves the newest `MaxHistory` of the old log
      followed by the batch. */
  lemma {:induction false} AppendAllIsCapped(es: seq<Entry>, news: seq<Entry>)
    requires |es| <= MaxHistory
    ensures AppendAll(es, news) == Capped(es + news)
  {
    if news == [] {
      assert es + news == es;
    } else {
      var init := news[..|news| - 1];
      var last := news[|news| - 1];
      calc {
        AppendAll(es, news);
        Appended(AppendAll(es, init), last);
        { AppendAllIsCapped(es, init); }
        Appended(Capped(es + init), last);
        Capped(Capped(es + init) + [last]);
        { CappedAppend(es + init, last); }
        Capped(es + init + [last]);
        { assert es + init + [last] == es + news; }
        Capped(es + news);
      }
    }
  }

  /** The entry a frame of an animated reply becomes: untyped frames are
      output. */
  function FrameEntry(f: AnimationFrame): Entry
  {
    Entry(f.kind.GetOr(OutputLine), f.content)
  }

  function FrameEntries(frames: seq<AnimationFrame>): (r: seq<Entry>)
    ensures |r| == |frames|
  {
    seq(|frames|, i requires 0 <= i < |frames| => FrameEntry(frames[i]))
  }

  // --------------------------------------------------------- the replies

  const AlreadyConnected := "🤖 AI: Already connected to AI assistant."
  const Establishing := "🔌 Establishing AI connection..."
  const Established := "✅ AI: Connection established."
  const Greeting := "🤖 AI: Hello! I'm your cyberpunk assistant. Ask me anything about Amit's work!"
  const Disconnected := "🔌 AI: Disconnected. Returning to terminal mode."
  const Processing := "🤖 AI: Processing..."
  const NotConnected := "❌ AI: Not connected. Use \"connect ai\" first."
  const Closing := "🚪 Closing Interactive Security Sandbox..."
  const CommandErrorHead := "❌ Command error: "
  const NotFoundHead := "❌ Command not found: "

  /** How a handler call ended: with a result, or by throwing (with the
      error's message when it is an `Error`). */
  datatype Outcome = Returned(result: CommandResult) | Threw(message: Option<string>)

  /** The entry logged for a typed line. */
  function InputEntry(aiMode: bool, line: string): (e: Entry)
    ensures e.kind == InputLine
    ensures |e.content| >= |line| && e.content[|e.content| - |line|..] == line
  {
    Entry(InputLine, (if aiMode then "AI>" else ">") + " " + line)
  }

  /** The answer to a line typed in AI mode; it is an error only when the
      socket is closed and the line does not disconnect. */
  function AiReply(line: string, wsOpen: bool): (e: Entry)
    ensures e.kind == ErrorLine <==> !IsDisconnectLine(line) && !wsOpen
  {
    if IsDisconnectLine(line) then Entry(SystemLine, Disconnected)
    else if wsOpen then Entry(SystemLine, Processing)
    else Entry(ErrorLine, NotConnected)
  }

  /** The error for a line no command answers to, with suggestions for its
      first word. */
  function UnknownMessage(line: string): string
  {
    NotFoundMessage(NotFoundHead, line, CyberpunkCommands.CommandSuggestions(FirstToken(line)))
  }

  /** The entry kind of a one-message result. */
  function MessageKind(r: CommandResult): EntryKind
    requires r.IsMessage()
  {
    if r.Output? then OutputLine else if r.System? then SystemLine else ErrorLine
  }

  /** The log after a handler's result is dispatched (`switch (result.type)`). */
  function Dispatched(es: seq<Entry>, r: CommandResult, wsOpen: bool): (d: seq<Entry>)
    requires |es| <= MaxHistory
    ensures |d| <= MaxHistory
    ensures r.Clear? ==> d == []
    ensures r.IsMessage() ==> |d| > 0 && d[|d| - 1] == Entry(MessageKind(r), r.content)
  {
    if r.IsMessage() then Appended(es, Entry(MessageKind(r), r.content))
    else if r.Clear? then []
    else if r.AiConnect? then Appended(es, Entry(SystemLine, if wsOpen then AlreadyConnected else Establishing))
    else if r.AiDisconnect? then Appended(es, Entry(SystemLine, Disconnected))
    else if r.Animated? then
      AppendAllIsCapped(es, FrameEntries(r.frames));
      AppendAll(es, FrameEntries(r.frames))
    else Appended(es, Entry(SystemLine, Closing))
  }

  /** The log after a handler's outcome: its dispatched result, or one
      error entry for a thrown error, which goes no further. */
  function Settled(es: seq<Entry>, o: Outcome, wsOpen: bool): (r: seq<Entry>)
    requires |es| <= MaxHistory
    ensures |r| <= MaxHistory
    ensures o.Threw? ==>
      |r| > 0 && r[|r| - 1].kind == ErrorLine && StartsWith(r[|r| - 1].content, CommandErrorHead)
  {
    if o.Threw? then
      var m := CommandErrorHead + o.message.GetOr("Unknown error");
      assert m[..|CommandErrorHead|] == CommandErrorHead;
      Appended(es, Entry(ErrorLine, m))
    else Dispatched(es, o.result, wsOpen)
  }

  // --------------------------------------------------------- the session

  class Engine {
    var entries: seq<Entry>
    var commandHistory: seq<string>
    var historyIndex: int
    var currentInput: string
    var isAiMode: bool
    /** The privilege state copied from the sandbox after each command. */
    var system: CyberpunkCommands.SystemSnapshot

    ghost predicate Valid()
      reads this
    {
      |entries| <= MaxHistory && -1 <= historyIndex < |commandHistory|
    }

    /** Everything but the log. */
    function Context(): (seq<string>, int, string, bool, CyberpunkCommands.SystemSnapshot)
      reads this
    {
      (commandHistory, historyIndex, currentInput, isAiMode, system)
    }

    /** The initial state: empty log and history, terminal mode. */
    constructor ()
      ensures Valid()
      ensures entries == [] && commandHistory == [] && historyIndex == -1 && currentInput == ""
      ensures !isAiMode && system == CyberpunkCommands.InitialState
    {
      entries := [];
      commandHistory := [];
      historyIndex := -1;
      currentInput := "";
      isAiMode := false;
      system := CyberpunkCommands.InitialState;
    }

    /** `addEntry`: append, then drop the oldest beyond `MaxHistory`. */
    method AddEntry(e: Entry)
      requires Valid()
      modifies this
      ensures Valid()
      ensures entries == Appended(old(entries), e)
      ensures Context() == old(Context())
    {
      var grown := entries + [e];
      if |grown| > MaxHistory {
        grown := grown[|grown| - MaxHistory..];
      }
      entries := grown;
    }

    /** `clearTerminal`. */
    method ClearTerminal()
      requires Valid()
      modifies this
      ensures Valid()
      ensures entries == [] && Context() == old(Context())
    {
      entries := [];
    }

    /** `setCurrentInput`. */
    method SetCurrentInput(input: string)
      requires Valid()
      modifies this
      ensures Valid()
      ensures currentInput == input
      ensures entries == old(entries) && commandHistory == old(commandHistory)
      ensures historyIndex == old(historyIndex) && isAiMode == old(isAiMode) && system == old(system)
    {
      currentInput := input;
    }

    /** The part of `connectAI` before the socket is opened. */
    method ConnectAi(wsOpen: bool)
      requires Valid()
      modifies this
      ensures Valid()
      ensures entries == Appended(old(entries), Entry(SystemLine, if wsOpen then AlreadyConnected else Establishing))
      ensures Context() == old(Context())
    {
      if wsOpen {
        AddEntry(Entry(SystemLine, AlreadyConnected));
      } else {
        AddEntry(Entry(SystemLine, Establishing));
      }
    }

    /** The socket's `onopen`: AI mode, with a greeting. */
    method ConnectionOpened()
      requires Valid()
      modifies this
      ensures Valid()
      ensures isAiMode
      ensures entries == Appended(Appended(old(entries), Entry(SystemLine, Established)), Entry(AiLine, Greeting))
      ensures commandHistory == old(commandHistory) && historyIndex == old(historyIndex)
      ensures currentInput == old(currentInput) && system == old(system)
    {
      isAiMode := true;
      AddEntry(Entry(SystemLine, Established));
      AddEntry(Entry(AiLine, Greeting));
    }

    /** `disconnectAI`: back to terminal mode. */
    method DisconnectAi()
      requires Valid()
      modifies this
      ensures Valid()
      ensures !isAiMode
      ensures entries == Appended(old(entries), Entry(SystemLine, Disconnected))
      ensures commandHistory == old(commandHistory) && historyIndex == old(historyIndex)
      ensures currentInput == old(currentInput) && system == old(system)
    {
      isAiMode := false;
      AddEntry(Entry(SystemLine, Disconnected));
    }

    /** `executeAnimatedOutput`: one entry per frame, in order. */
    method PlayFrames(frames: seq<AnimationFrame>)
      requires Valid()
      modifies this
      ensures Valid()
      ensures entries == AppendAll(old(entries), FrameEntries(frames))
      ensures entries == Capped(old(entries) + FrameEntries(frames))
      ensures Context() == old(Context())
    {
      var news := FrameEntries(frames);
      var k := 0;
      while k < |frames|
        invariant 0 <= k <= |frames|
        invariant Valid()
        invariant entries == AppendAll(old(entries), news[..k])
        invariant Context() == old(Context())
      {
        AddEntry(Entry(frames[k].kind.GetOr(OutputLine), frames[k].content));
        assert news[..k + 1][..k] == news[..k];
        k := k + 1;
      }
      assert news[..|frames|] == news;
      AppendAllIsCapped(old(entries), news);
    }

    /** The `switch (result.type)` and the `catch` of `executeCommand`. */
    method Settle(o: Outcome, wsOpen: bool)
      requires Valid()
      modifies this
      ensures Valid()
      ensures entries == Settled(old(entries), o, wsOpen)
      ensures isAiMode == (old(isAiMode) && o != Returned(AiDisconnect))
      ensures commandHistory == old(commandHistory) && historyIndex == old(historyIndex)
      ensures currentInput == old(currentInput) && system == old(system)
    {
      if o.Threw? {
        AddEntry(Entry(ErrorLine, CommandErrorHead + o.message.GetOr("Unknown error")));
      } else if o.result.IsMessage() {
        AddEntry(Entry(MessageKind(o.result), o.result.content));
      } else if o.result.Clear? {
        ClearTerminal();
      } else if o.result.AiConnect? {
        ConnectAi(wsOpen);
      } else if o.result.AiDisconnect? {
        DisconnectAi();
      } else if o.result.Animated? {
        PlayFrames(o.result.frames);
      } else {
        AddEntry(Entry(SystemLine, Closing));
      }
    }

    /** Logs a non-empty line and records it in the command history. */
    method Record(line: string)
      requires Valid()
      modifies this
      ensures Valid()
      ensures entries == Appended(old(entries), InputEntry(old(isAiMode), line))
      ensures commandHistory == old(commandHistory) + [line] && historyIndex == -1
      ensures currentInput == old(currentInput) && isAiMode == old(isAiMode) && system == old(system)
    {
      AddEntry(InputEntry(isAiMode, line));
      commandHistory := commandHistory + [line];
      historyIndex := -1;
    }

    /** A line typed in AI mode: never looked up as a command. */
    method AiTurn(line: string, wsOpen: bool)
      requires Valid()
      modifies this
      ensures Valid()
      ensures entries == Appended(old(entries), AiReply(line, wsOpen))
      ensures isAiMode == (old(isAiMode) && !IsDisconnectLine(line))
      ensures commandHistory == old(commandHistory) && historyIndex == old(historyIndex)
      ensures currentInput == old(currentInput) && system == old(system)
    {
      if IsDisconnectLine(line) {
        DisconnectAi();
      } else if wsOpen {
        AddEntry(Entry(SystemLine, Processing));
      } else {
        AddEntry(Entry(ErrorLine, NotConnected));
      }
    }

    /** Runs a sandbox command: it answers as `Respond` says and moves the
        privilege state as `Next` says; the state is then mirrored and the
        answer dispatched. */
    method RunSandbox(sys: CyberpunkCommands.SystemState, cursor: string,
                      c: CyberpunkCommands.CyberCommand, wsOpen: bool)
      requires Valid() && !c.Fs?
      modifies this, sys
      ensures Valid()
      ensures commandHistory == old(commandHistory) && historyIndex == old(historyIndex)
      ensures currentInput == old(currentInput)
      ensures sys.Current() == CyberpunkCommands.Next(old(sys.Current()), c) && system == sys.Current()
      ensures var r := CyberpunkCommands.Respond(old(sys.Current()), cursor, c);
        entries == Settled(old(entries), Returned(r), wsOpen) &&
        isAiMode == (old(isAiMode) && !r.AiDisconnect?)
    {
      var r := CyberpunkCommands.Answer(sys, cursor, c);
      system := sys.Get();
      Settle(Returned(r), wsOpen);
    }

    /** Runs a file-system command with the single-space pieces after the
        command word; a read-only one answers as `Query` says. */
    method RunFs(sys: CyberpunkCommands.SystemState, fs: VirtualFileSystem.FileSystem,
                 c: FsCommands.FsCommand, line: string, wsOpen: bool, now: string)
      requires Valid() && fs.Valid()
      modifies this, fs
      ensures Valid() && fs.Valid()
      ensures commandHistory == old(commandHistory) && historyIndex == old(historyIndex)
      ensures currentInput == old(currentInput) && system == sys.Current()
      ensures !c.Mutates() ==> fs.State() == old(fs.State())
      ensures !c.Mutates() ==>
        var r := FsCommands.Query(old(fs.root), old(fs.currentPath), c, Args(line));
        entries == Settled(old(entries), Returned(r), wsOpen) &&
        isAiMode == (old(isAiMode) && !r.AiDisconnect?)
    {
      var r := FsCommands.Execute(fs, c, Args(line), now);
      system := sys.Get();
      Settle(Returned(r), wsOpen);
    }

    /** A line typed in terminal mode: looked up as a whole and run when
        found; an unknown line logs one error and runs nothing. */
    method CommandTurn(sys: CyberpunkCommands.SystemState, fs: VirtualFileSystem.FileSystem,
                       line: string, wsOpen: bool, now: string)
      requires Valid() && fs.Valid()
      modifies this, sys, fs
      ensures Valid() && fs.Valid()
      ensures commandHistory == old(commandHistory) && historyIndex == old(historyIndex)
      ensures currentInput == old(currentInput)
      ensures CyberpunkCommands.Lookup(line).None? ==>
        entries == Appended(old(entries), Entry(ErrorLine, UnknownMessage(line))) &&
        isAiMode == old(isAiMode) && system == old(system) && sys.Current() == old(sys.Current()) && fs.State() == old(fs.State())
      ensures CyberpunkCommands.Lookup(line).Some? && !CyberpunkCommands.Lookup(line).value.Fs? ==>
        var c := CyberpunkCommands.Lookup(line).value;
        var r := CyberpunkCommands.Respond(old(sys.Current()), old(fs.currentPath), c);
        entries == Settled(old(entries), Returned(r), wsOpen) &&
        isAiMode == (old(isAiMode) && !r.AiDisconnect?) && system == sys.Current() &&
        sys.Current() == CyberpunkCommands.Next(old(sys.Current()), c) && fs.State() == old(fs.State())
    {
      var found := CyberpunkCommands.Lookup(line);
      if found.None? {
        AddEntry(Entry(ErrorLine, UnknownMessage(line)));
      } else {
        if found.value.Fs? {
          RunFs(sys, fs, found.value.command, line, wsOpen, now);
        } else {
          RunSandbox(sys, fs.currentPath, found.value, wsOpen);
        }
      }
    }

    /** `executeCommand`.  A blank line changes nothing; any other line is
        logged with the prompt of the current mode and recorded in the
        history, then answered in AI mode without any lookup, or run as a
        command otherwise. */
    method ExecuteCommand(sys: CyberpunkCommands.SystemState, fs: VirtualFileSystem.FileSystem,
                          input: string, wsOpen: bool, now: string)
      requires Valid() && fs.Valid()
      modifies this, sys, fs
      ensures Valid() && fs.Valid()
      ensures Trim(input) == "" ==>
        entries == old(entries) && Context() == old(Context()) && sys.Current() == old(sys.Current()) && fs.State() == old(fs.State())
      ensures Trim(input) != "" ==>
        commandHistory == old(commandHistory) + [Trim(input)] && historyIndex == -1 &&
        currentInput == old(currentInput)
      ensures Trim(input) != "" && old(isAiMode) ==>
        entries == Appended(Appended(old(entries), InputEntry(true, Trim(input))), AiReply(Trim(input), wsOpen)) &&
        isAiMode == !IsDisconnectLine(Trim(input)) && system == old(system) &&
        sys.Current() == old(sys.Current()) && fs.State() == old(fs.State())
      ensures Trim(input) != "" && !old(isAiMode) && CyberpunkCommands.Lookup(Trim(input)).None? ==>
        entries == Appended(Appended(old(entries), InputEntry(false, Trim(input))),
                            Entry(ErrorLine, UnknownMessage(Trim(input)))) &&
        !isAiMode && system == old(system) && sys.Current() == old(sys.Current()) && fs.State() == old(fs.State())
      ensures Trim(input) != "" && !old(isAiMode) && CyberpunkCommands.Lookup(Trim(input)).Some? &&
              !CyberpunkCommands.Lookup(Trim(input)).value.Fs? ==>
        var c := CyberpunkCommands.Lookup(Trim(input)).value;
        var r := CyberpunkCommands.Respond(old(sys.Current()), old(fs.currentPath), c);
        entries == Settled(Appended(old(entries), InputEntry(false, Trim(input))), Returned(r), wsOpen) &&
        !isAiMode && system == sys.Current() &&
        sys.Current() == CyberpunkCommands.Next(old(sys.Current()), c) && fs.State() == old(fs.State())
    {
      var line := Trim(input);
      if line == "" {
        return;
      }
      var aiMode := isAiMode;
      Record(line);
      if aiMode {
        AiTurn(line, wsOpen);
        return;
      }
      CommandTurn(sys, fs, line, wsOpen, now);
    }

    /** `navigateHistory`: nothing happens on an empty history; otherwise
        the index moves as `NextIndex` says and the input shows the line
        recalled there. */
    method NavigateHistory(d: Direction)
      requires Valid()
      modifies this
      ensures Valid()
      ensures entries == old(entries) && commandHistory == old(commandHistory)
      ensures isAiMode == old(isAiMode) && system == old(system)
      ensures commandHistory == [] ==> historyIndex == old(historyIndex) && currentInput == old(currentInput)
      ensures commandHistory != [] ==>
        historyIndex == NextIndex(|commandHistory|, old(historyIndex), d) &&
        currentInput == Recalled(commandHistory, historyIndex)
    {
      if |commandHistory| == 0 {
        return;
      }
      historyIndex := NextIndex(|commandHistory|, historyIndex, d);
      currentInput := Recalled(commandHistory, historyIndex);
    }
  }
}
