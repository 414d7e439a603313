/**
  The values the security-sandbox terminal passes around: what a command
  returns, the frames of an animated reply, and the kinds of terminal entry.
  Frame delays are timing only and are not kept.
 */
module TerminalTypes {
  import opened Wrappers

  /** The `type` of a terminal entry. */
  datatype EntryKind = InputLine | OutputLine | SystemLine | ErrorLine | AiLine

  /** One line of a terminal's log; its id and timestamp are not kept. */
  datatype Entry = Entry(kind: EntryKind, content: string)

  /** One frame of an animated reply; `kind` is absent when the source gives none. */
  datatype AnimationFrame = Frame(content: string, kind: Option<EntryKind>)

  /** `CommandResult`: what a command's `execute` returns. */
  datatype CommandResult =
    | Output(content: string)
    | System(content: string)
    | Error(content: string)
    | Clear
    | AiConnect
    | AiDisconnect
    | Animated(frames: seq<AnimationFrame>)
    | Exit
  {
    /** The results that carry one message. */
    predicate IsMessage()
    {
      Output? || System? || Error?
    }
  }

  /** A registry entry: its key and its aliases (its description, used only
      by the static help text, is not kept). */
  datatype CommandInfo = CommandInfo(name: string, aliases: seq<string>)
}
