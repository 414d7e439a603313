/**
  The prompt of the sandbox's input line (`TerminalInput`): the cursor path
  shown with the root as `~`, or `AI>` in AI mode, and the prompt's colour.
 */
module Prompt {
  import opened Text

  /** `displayPath`: the root is `~`, and otherwise only the first leading
      slash becomes `~/`. */
  function DisplayPath(path: string): (d: string)
    ensures path == "/" ==> d == "~"
    ensures path != "/" && StartsWith(path, "/") ==> StartsWith(d, "~/") && d[2..] == path[1..]
    ensures !StartsWith(path, "/") ==> d == path
  {
    if path == "/" then "~"
    else if |path| > 0 && path[0] == '/' then "~/" + path[1..]
    else path
  }

  /** Reading a displayed path back: `~` is the root and a leading `~/` is
      a leading slash. */
  function Expanded(d: string): string
  {
    if d == "~" then "/"
    else if |d| >= 2 && d[..2] == "~/" then "/" + d[2..]
    else d
  }

  /** An absolute cursor is recovered from its display, so no two absolute
      cursors are shown alike. */
  lemma DisplayPathRoundTrip(path: string)
    requires StartsWith(path, "/")
    ensures Expanded(DisplayPath(path)) == path
  {
    if path != "/" {
      assert DisplayPath(path)[..2] == "~/";
      assert "/" + path[1..] == path;
    }
  }

  /** A second slash is kept: `//x` is shown as `~//x`. */
  lemma OnlyFirstSlashReplaced(rest: string)
    ensures DisplayPath("//" + rest) == "~//" + rest
  {
    assert ("//" + rest)[1..] == "/" + rest;
  }

  /** `prompt`: `AI>` in AI mode whatever the path, the displayed path and
      ` $` otherwise. */
  function PromptText(aiMode: bool, path: string): (p: string)
    ensures aiMode ==> p == "AI>"
    ensures !aiMode ==> |p| == |DisplayPath(path)| + 2 && StartsWith(p, DisplayPath(path)) && p[|p| - 2..] == " $"
  {
    if aiMode then "AI>" else DisplayPath(path) + " $"
  }

  /** The colours the prompt is drawn in. */
  datatype PromptColor = Green | Cyan

  /** `promptColor`: green exactly in AI mode. */
  function ColorOf(aiMode: bool): (c: PromptColor)
    ensures c == Green <==> aiMode
  {
    if aiMode then Green else Cyan
  }
}
