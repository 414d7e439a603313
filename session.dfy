/**
  Rules the two terminal sessions share: how a typed line is split into a
  command word and arguments, the message an unknown line produces, and how
  the up and down keys walk the command history.
 */
module Session {
  import opened Text

  // ------------------------------------------------------ typed lines

  /** `trimmedInput.split(' ')[0]`: the word suggestions are computed from. */
  function FirstToken(line: string): (w: string)
    ensures ' ' !in w
  {
    Split(line, ' ')[0]
  }

  /** `trimmedInput.split(' ').slice(1)`: the arguments handed to a handler. */
  function Args(line: string): (a: seq<string>)
    ensures forall k :: 0 <= k < |a| ==> ' ' !in a[k]
  {
    Split(line, ' ')[1..]
  }

  /** A line whose first space follows the word `w` has `w` as its first
      token, and its arguments are the single-space pieces of the rest. */
  lemma FirstTokenAndArgs(w: string, rest: string)
    requires ' ' !in w
    ensures FirstToken(w + " " + rest) == w
    ensures Args(w + " " + rest) == Split(rest, ' ')
  {
    SplitNoSepPrefix(w, " " + rest, ' ');
    assert w + " " + rest == w + (" " + rest);
    assert (" " + rest)[1..] == rest;
    assert w + "" == w;
  }

  /** The split is on single spaces, so two spaces after the command word
      hand the handler an empty first argument. */
  lemma RepeatedSpaceGivesEmptyArgument(w: string, rest: string)
    requires ' ' !in w
    ensures |Args(w + "  " + rest)| >= 1 && Args(w + "  " + rest)[0] == ""
  {
    assert w + "  " + rest == w + " " + (" " + rest);
    FirstTokenAndArgs(w, " " + rest);
    assert (" " + rest)[1..] == rest;
  }

  /** The two lines that leave AI mode, in any letter case; both sessions
      test them before a line in AI mode goes anywhere else. */
  predicate IsDisconnectLine(line: string)
  {
    Lower(line) == "disconnect ai" || Lower(line) == "exit ai"
  }

  // --------------------------------------------------- unknown lines

  const HelpHint := "\n\nType \"help\" for available commands."
  const DidYouMean := "\n\n💡 Did you mean: "

  /** The error an unknown line produces: `head` and the quoted line, the
      suggestions when there are any, and the hint about `help`. */
  function NotFoundMessage(head: string, line: string, suggestions: seq<string>): (m: string)
    ensures StartsWith(m, head + "\"" + line + "\"")
    ensures |m| >= |HelpHint| && m[|m| - |HelpHint|..] == HelpHint
    ensures suggestions == [] ==> |m| == |head| + |line| + 2 + |HelpHint|
    ensures suggestions != [] ==> Contains(m, DidYouMean + Join(suggestions, ", ") + "?")
  {
    var quoted := head + "\"" + line + "\"";
    var offer := if suggestions == [] then "" else DidYouMean + Join(suggestions, ", ") + "?";
    assert (quoted + offer + HelpHint)[..|quoted|] == quoted;
    ContainsSlice(quoted + offer + HelpHint, |quoted|, |quoted| + |offer|);
    assert (quoted + offer + HelpHint)[|quoted|..|quoted| + |offer|] == offer;
    quoted + offer + HelpHint
  }

  // ------------------------------------------------- history recall

  /** The two arrow keys. */
  datatype Direction = Up | Down

  /** The history index after one key press on a non-empty history of
      `len` lines; -1 means "not recalling". */
  function NextIndex(len: nat, i: int, d: Direction): (j: int)
    requires -1 <= i < len && len > 0
    ensures -1 <= j < len
    ensures d.Up? ==> j >= 0
    ensures d.Down? ==> (j == -1 <==> i == -1)
  {
    match d
    case Up => if i == -1 then len - 1 else if i - 1 < 0 then 0 else i - 1
    case Down => if i == -1 then -1 else if i + 1 < len - 1 then i + 1 else len - 1
  }

  /** The input line shown at history index `i`: the empty line at -1. */
  function Recalled(history: seq<string>, i: int): (s: string)
    requires -1 <= i < |history|
    ensures i == -1 ==> s == ""
    ensures i != -1 ==> s in history
  {
    if i == -1 then "" else history[i]
  }

  /** Down undoes Up away from the oldest line, and Up undoes Down away
      from the newest. */
  lemma UpDownRoundTrip(len: nat, i: int)
    requires 0 <= i < len
    ensures i > 0 ==> NextIndex(len, NextIndex(len, i, Up), Down) == i
    ensures i < len - 1 ==> NextIndex(len, NextIndex(len, i, Down), Up) == i
  {
  }

  /** `n` presses of the same key. */
  function Presses(len: nat, i: int, d: Direction, n: nat): (j: int)
    requires -1 <= i < len && len > 0
    ensures -1 <= j < len
  {
    if n == 0 then i else NextIndex(len, Presses(len, i, d, n - 1), d)
  }

  /** Starting from "not recalling", the `n`-th Up shows the `n`-th newest
      line and then stays on the oldest. */
  lemma {:induction false} UpWalksBack(len: nat, n: nat)
    requires len > 0 && n >= 1
    ensures Presses(len, -1, Up, n) == if n <= len then len - n else 0
  {
    if n > 1 {
      UpWalksBack(len, n - 1);
    }
  }

  /** From a recalled line, the `n`-th Down moves `n` lines newer and then
      stays on the newest; it never returns to "not recalling". */
  lemma {:induction false} DownWalksForward(len: nat, i: nat, n: nat)
    requires i < len
    ensures Presses(len, i, Down, n) == if i + n < len then i + n else len - 1
  {
    if n > 0 {
      DownWalksForward(len, i, n - 1);
    }
  }
}
