/**
  The file-system commands of the terminal (`fileSystemCommands`): each one
  reads its arguments, consults or changes the shared file-system state and
  answers with a `CommandResult`.  Commands that only read are functions of
  the tree and the cursor; commands that change the state are methods on the
  `FileSystem` object.
 */
module FsCommands {
  import opened Wrappers
  import opened Text
  import opened FsTree
  import opened VirtualFileSystem
  import opened TerminalTypes
  import CommandRegistry

  /** The file-system commands, in registry order, with their aliases. */
  const Registry: seq<CommandInfo> := [
    CommandInfo("ls", ["dir"]),
    CommandInfo("cd", []),
    CommandInfo("pwd", []),
    CommandInfo("cat", ["type", "more"]),
    CommandInfo("tree", []),
    CommandInfo("mkdir", []),
    CommandInfo("touch", []),
    CommandInfo("rm", ["del", "delete"]),
    CommandInfo("reset", []),
    CommandInfo("find", []),
    CommandInfo("grep", []),
    CommandInfo("head", []),
    CommandInfo("tail", []),
    CommandInfo("wc", []),
    CommandInfo("file", []),
    CommandInfo("echo", []),
    CommandInfo("testcmd", [])
  ]

  // ------------------------------------------------------- file checks

  /** What a file argument turns out to be. */
  datatype FileCheck = NotFound | IsDirectory | Regular(content: string)

  /** The lookup `cat`, `grep`, `head`, `tail` and `wc` make: the argument is
      resolved against the cursor and then looked up (which resolves it again). */
  function CheckFile(root: Node, cursor: string, filename: string): FileCheck
  {
    match FileAt(root, cursor, Resolve(cursor, filename))
    case None => NotFound
    case Some(n) => if n.Directory? then IsDirectory else Regular(n.content)
  }

  /** Resolving twice lands on the node the argument names. */
  lemma CheckFileMeaning(root: Node, cursor: string, filename: string)
    ensures CheckFile(root, cursor, filename).NotFound? <==> FileAt(root, cursor, filename).None?
    ensures CheckFile(root, cursor, filename).IsDirectory? <==>
      FileAt(root, cursor, filename).Some? && FileAt(root, cursor, filename).value.Directory?
    ensures CheckFile(root, cursor, filename).Regular? ==>
      FileAt(root, cursor, filename).Some? && FileAt(root, cursor, filename).value.File? &&
      CheckFile(root, cursor, filename).content == FileAt(root, cursor, filename).value.content
  {
    ResolveIdempotent(cursor, cursor, filename);
  }

  function FileError(c: FileCheck, filename: string): CommandResult
  {
    if c.NotFound? then Error("❌ File not found: " + filename)
    else Error("❌ " + filename + " is a directory")
  }

  const EmptyFile := "📄 File is empty"

  function Icon(n: Node): string
  {
    if n.Directory? then "📁" else "📄"
  }

  // ------------------------------------------------------ ls, pwd, tree

  /** One row of `ls -l`; a directory has no size and shows `0B`. */
  function LongEntry(e: Node): string
  {
    (if e.permissions == "" then "-rw-r--r--" else e.permissions) + " 1 user user " +
    PadStart(SizeText(if e.File? then e.size else 0), 8) + " " +
    (if e.modified == "" then "2025-01-15 12:00" else e.modified) + " " +
    Icon(e) + " " + e.name + (if e.isUserCreated then " *" else "")
  }

  /** One item of the plain listing. */
  function ShortEntry(e: Node): string
  {
    Icon(e) + " " + e.name + (if e.isUserCreated then "*" else "")
  }

  function LongEntries(cs: seq<Node>): (r: seq<string>)
    ensures |r| == |cs| && forall k :: 0 <= k < |cs| ==> r[k] == LongEntry(cs[k])
  {
    seq(|cs|, k requires 0 <= k < |cs| => LongEntry(cs[k]))
  }

  function ShortEntries(cs: seq<Node>): (r: seq<string>)
    ensures |r| == |cs| && forall k :: 0 <= k < |cs| ==> r[k] == ShortEntry(cs[k])
  {
    seq(|cs|, k requires 0 <= k < |cs| => ShortEntry(cs[k]))
  }

  function LsHeader(count: nat): string
  {
    "total " + NatToString(count)
  }

  /** `ls [-l|--long]` in the current directory (`-a` is accepted and ignored). */
  function Ls(root: Node, cursor: string, args: seq<string>): CommandResult
  {
    var dir := DirectoryAt(root, cursor);
    if dir.File? then Error("❌ Not a directory")
    else if |dir.children| == 0 then Output("📁 Directory is empty")
    else if "-l" in args || "--long" in args then
      Output(Join([LsHeader(|dir.children|)] + LongEntries(dir.children), "\n"))
    else Output(Join(ShortEntries(dir.children), "  "))
  }

  /** The long listing is a header counting the entries followed by one line
      per entry in order, as long as no entry's row holds a line break. */
  lemma LsLongLines(root: Node, cursor: string, args: seq<string>)
    requires DirectoryAt(root, cursor).Directory? && |DirectoryAt(root, cursor).children| > 0
    requires "-l" in args
    requires forall k :: 0 <= k < |DirectoryAt(root, cursor).children| ==>
      '\n' !in LongEntry(DirectoryAt(root, cursor).children[k])
    ensures Ls(root, cursor, args).Output?
    ensures var cs := DirectoryAt(root, cursor).children;
      var lines := Split(Ls(root, cursor, args).content, '\n');
      |lines| == |cs| + 1 && lines[0] == LsHeader(|cs|) &&
      forall k :: 0 <= k < |cs| ==> lines[k + 1] == LongEntry(cs[k])
  {
    var cs := DirectoryAt(root, cursor).children;
    var parts := [LsHeader(|cs|)] + LongEntries(cs);
    forall k | 0 <= k < |parts| ensures '\n' !in parts[k] {
      if k > 0 {
        assert parts[k] == LongEntry(cs[k - 1]);
      } else {
        NoNewlineInDigits(NatToString(|cs|));
        assert LsHeader(|cs|) == "total " + NatToString(|cs|);
      }
    }
    assert "\n" == ['\n'];
    SplitJoin(parts, '\n');
  }

  lemma NoNewlineInDigits(d: string)
    requires forall i :: 0 <= i < |d| ==> '0' <= d[i] <= '9'
    ensures '\n' !in "total " + d
  {
    var s := "total " + d;
    forall i | 0 <= i < |s| ensures s[i] != '\n' {
      if i >= 6 {
        assert s[i] == d[i - 6];
      }
    }
  }

  function Pwd(cursor: string): CommandResult
  {
    Output("📍 Current directory: " + cursor)
  }

  const TreeFooter := "\n\n📊 File system contains projects, infrastructure docs, logs, and IoT device configs.\n💡 Files marked with * are user-created and can be deleted."

  /** `tree` (its `-a` and `-L` options are read and never used). */
  function Tree(root: Node): CommandResult
  {
    Output("🌳 Directory Tree Structure:\n\n" + TreeView(root, "", true) + TreeFooter)
  }

  // --------------------------------------------------------------- cat

  function Cat(root: Node, cursor: string, args: seq<string>): CommandResult
  {
    if |args| == 0 then Error("❌ Usage: cat <filename>")
    else
      var c := CheckFile(root, cursor, args[0]);
      if !c.Regular? then FileError(c, args[0])
      else if c.content == "" then Output(EmptyFile)
      else Output("📄 " + args[0] + ":\n\n" + c.content)
  }

  // -------------------------------------------------------------- grep

  predicate LineMatches(line: string, pattern: string)
  {
    Contains(Lower(line), pattern)
  }

  /** Line `k` (counted from 0) as `grep` prints it: its 1-based number
      right-aligned in three columns, a colon, the line. */
  function GrepLine(lines: seq<string>, k: nat): string
    requires k < |lines|
  {
    PadStart(NatToString(k + 1), 3) + ": " + lines[k]
  }

  /** What the `forEach` over the lines has collected after the first `n` lines. */
  function Grepped(lines: seq<string>, pattern: string, n: nat): seq<string>
    requires n <= |lines|
  {
    if n == 0 then []
    else Grepped(lines, pattern, n - 1) + if LineMatches(lines[n - 1], pattern) then [GrepLine(lines, n - 1)] else []
  }

  /** The positions of the matching lines among the first `n`. */
  function MatchIndices(lines: seq<string>, pattern: string, n: nat): (r: seq<nat>)
    requires n <= |lines|
    ensures forall k :: 0 <= k < |r| ==> r[k] < n && LineMatches(lines[r[k]], pattern)
  {
    if n == 0 then []
    else MatchIndices(lines, pattern, n - 1) + if LineMatches(lines[n - 1], pattern) then [n - 1] else []
  }

  /** Every matching line is found, and the positions increase strictly. */
  lemma {:induction false} MatchIndicesComplete(lines: seq<string>, pattern: string, n: nat)
    requires n <= |lines|
    ensures forall j :: 0 <= j < n && LineMatches(lines[j], pattern) ==> j in MatchIndices(lines, pattern, n)
    ensures forall a, b :: 0 <= a < b < |MatchIndices(lines, pattern, n)| ==>
      MatchIndices(lines, pattern, n)[a] < MatchIndices(lines, pattern, n)[b]
  {
    if n > 0 {
      MatchIndicesComplete(lines, pattern, n - 1);
    }
  }

  /** `grep` prints exactly the matching lines, in order, each with its number. */
  lemma {:induction false} GreppedNumbersMatches(lines: seq<string>, pattern: string, n: nat)
    requires n <= |lines|
    ensures |Grepped(lines, pattern, n)| == |MatchIndices(lines, pattern, n)|
    ensures forall k :: 0 <= k < |Grepped(lines, pattern, n)| ==>
      Grepped(lines, pattern, n)[k] == GrepLine(lines, MatchIndices(lines, pattern, n)[k])
  {
    if n > 0 {
      GreppedNumbersMatches(lines, pattern, n - 1);
    }
  }

  /** The collecting loop of `grep`. */
  method CollectMatches(lines: seq<string>, pattern: string) returns (matches: seq<string>)
    ensures matches == Grepped(lines, pattern, |lines|)
  {
    matches := [];
    var i := 0;
    while i < |lines|
      invariant 0 <= i <= |lines|
      invariant matches == Grepped(lines, pattern, i)
    {
      if LineMatches(lines[i], pattern) {
        matches := matches + [GrepLine(lines, i)];
      }
      i := i + 1;
    }
  }

  function Grep(root: Node, cursor: string, args: seq<string>): CommandResult
  {
    if |args| < 2 then Error("❌ Usage: grep <pattern> <filename>")
    else
      var pattern := Lower(args[0]);
      var filename := args[1];
      var c := CheckFile(root, cursor, filename);
      if !c.Regular? then FileError(c, filename)
      else if c.content == "" then Output(EmptyFile)
      else
        var lines := Split(c.content, '\n');
        var matches := Grepped(lines, pattern, |lines|);
        if |matches| == 0 then Output("🔍 No matches found for \"" + pattern + "\" in " + filename)
        else Output("🔍 Matches for \"" + pattern + "\" in " + filename + ":\n\n" + Join(matches, "\n") +
                    "\n\n📊 Found " + NatToString(|matches|) + " matches")
  }

  // --------------------------------------------------------- head, tail

  /** `args.includes('-n') ? parseInt(args[args.indexOf('-n') + 1]) || 10 : 10`:
      a missing, unparsable or zero count means 10; a negative one is kept. */
  function LineCountArg(args: seq<string>): (n: int)
    ensures n != 0
    ensures "-n" !in args ==> n == 10
  {
    match IndexOf(args, "-n")
    case None => 10
    case Some(i) =>
      if i + 1 < |args| then
        match ParseInt(args[i + 1])
        case Some(v) => if v == 0 then 10 else v
        case None => 10
      else 10
  }

  /** `-n <count>` after options without `-n` sets the count. */
  lemma LineCountArgReads(before: seq<string>, n: int, after: seq<string>)
    requires "-n" !in before && n != 0
    ensures LineCountArg(before + ["-n", IntToString(n)] + after) == n
  {
    var args := before + ["-n", IntToString(n)] + after;
    assert args[|before|] == "-n";
    var i := IndexOf(args, "-n").value;
    assert args[i + 1] == IntToString(n);
    ParseIntOfIntToString(n);
  }

  function Head(root: Node, cursor: string, args: seq<string>): CommandResult
  {
    if |args| == 0 then Error("❌ Usage: head <filename> [-n lines]")
    else
      var filename := args[0];
      var n := LineCountArg(args);
      var c := CheckFile(root, cursor, filename);
      if !c.Regular? then FileError(c, filename)
      else if c.content == "" then Output(EmptyFile)
      else Output("📄 First " + IntToString(n) + " lines of " + filename + ":\n\n" +
                  Join(Slice(Split(c.content, '\n'), 0, n), "\n"))
  }

  function Tail(root: Node, cursor: string, args: seq<string>): CommandResult
  {
    if |args| == 0 then Error("❌ Usage: tail <filename> [-n lines]")
    else
      var filename := args[0];
      var n := LineCountArg(args);
      var c := CheckFile(root, cursor, filename);
      if !c.Regular? then FileError(c, filename)
      else if c.content == "" then Output(EmptyFile)
      else
        var lines := Split(c.content, '\n');
        Output("📄 Last " + IntToString(n) + " lines of " + filename + ":\n\n" +
               Join(Slice(lines, -n, |lines|), "\n"))
  }

  /** `lines.slice(0, n)`: the first `n` lines for a positive count, all but
      the last `-n` for a negative one. */
  lemma {:induction false} HeadSlice(lines: seq<string>, n: int)
    ensures n > 0 ==> Slice(lines, 0, n) == lines[..if n < |lines| then n else |lines|]
    ensures n < 0 ==> Slice(lines, 0, n) == lines[..if |lines| + n > 0 then |lines| + n else 0]
  {
    if n < 0 && |lines| + n <= 0 {
      assert lines[..0] == [];
    }
  }

  /** `lines.slice(-n)`: the last `n` lines for a positive count, all but the
      first `-n` for a negative one. */
  lemma {:induction false} TailSlice(lines: seq<string>, n: int)
    ensures n > 0 ==> Slice(lines, -n, |lines|) == lines[|lines| - (if n < |lines| then n else |lines|)..]
    ensures n < 0 ==> Slice(lines, -n, |lines|) == lines[if -n < |lines| then -n else |lines|..]
  {
    if |lines| == 0 || (n < 0 && -n >= |lines|) {
      assert lines[|lines|..] == [];
    }
  }

  // ---------------------------------------------------------------- wc

  function WcReport(filename: string, lines: nat, words: nat, chars: nat): string
  {
    "📊 " + filename + ": " + NatToString(lines) + " lines, " + NatToString(words) + " words, " +
    NatToString(chars) + " characters"
  }

  function Wc(root: Node, cursor: string, args: seq<string>): CommandResult
  {
    if |args| == 0 then Error("❌ Usage: wc <filename>")
    else
      var filename := args[0];
      var c := CheckFile(root, cursor, filename);
      if !c.Regular? then FileError(c, filename)
      else if c.content == "" then Output(WcReport(filename, 0, 0, 0))
      else Output(WcReport(filename, |Split(c.content, '\n')|, |Words(c.content)|, |c.content|))
  }

  /** `wc` counts one line more than there are line breaks, and the words of
      text written as words separated by single spaces are those words. */
  lemma WcCounts(content: string, ws: seq<string>)
    requires forall k :: 0 <= k < |ws| ==> ws[k] != "" && NoSpace(ws[k])
    ensures |Split(content, '\n')| == 1 + Occurrences(content, '\n')
    ensures |Words(Join(ws, " "))| == |ws|
  {
    SplitCount(content, '\n');
    WordsOfJoin(ws);
  }

  /** The error answers shared by `cat`, `grep`, `head`, `tail` and `wc`:
      a missing argument, a path that names nothing, a directory, an empty file. */
  lemma SharedFileErrors(root: Node, cursor: string, args: seq<string>)
    ensures |args| == 0 ==>
      Cat(root, cursor, args) == Error("❌ Usage: cat <filename>") &&
      Head(root, cursor, args) == Error("❌ Usage: head <filename> [-n lines]") &&
      Tail(root, cursor, args) == Error("❌ Usage: tail <filename> [-n lines]") &&
      Wc(root, cursor, args) == Error("❌ Usage: wc <filename>")
    ensures |args| < 2 ==> Grep(root, cursor, args) == Error("❌ Usage: grep <pattern> <filename>")
    ensures |args| > 0 && FileAt(root, cursor, args[0]).None? ==>
      var e := Error("❌ File not found: " + args[0]);
      Cat(root, cursor, args) == e && Head(root, cursor, args) == e &&
      Tail(root, cursor, args) == e && Wc(root, cursor, args) == e
    ensures |args| > 0 && FileAt(root, cursor, args[0]).Some? && FileAt(root, cursor, args[0]).value.Directory? ==>
      var e := Error("❌ " + args[0] + " is a directory");
      Cat(root, cursor, args) == e && Head(root, cursor, args) == e &&
      Tail(root, cursor, args) == e && Wc(root, cursor, args) == e
    ensures |args| > 1 && FileAt(root, cursor, args[1]).None? ==>
      Grep(root, cursor, args) == Error("❌ File not found: " + args[1])
    ensures |args| > 1 && FileAt(root, cursor, args[1]).Some? && FileAt(root, cursor, args[1]).value.Directory? ==>
      Grep(root, cursor, args) == Error("❌ " + args[1] + " is a directory")
    ensures |args| > 0 && FileAt(root, cursor, args[0]) == Some(File(args[0], "", 0, "", "", None, false)) ==>
      Cat(root, cursor, args) == Output(EmptyFile) && Head(root, cursor, args) == Output(EmptyFile) &&
      Tail(root, cursor, args) == Output(EmptyFile) && Wc(root, cursor, args) == Output(WcReport(args[0], 0, 0, 0))
  {
    if |args| > 0 {
      CheckFileMeaning(root, cursor, args[0]);
    }
    if |args| > 1 {
      CheckFileMeaning(root, cursor, args[1]);
    }
  }

  // -------------------------------------------------------------- file

  /** `filename.split('.').pop().toLowerCase()`. */
  function Extension(filename: string): string
  {
    var parts := Split(filename, '.');
    Lower(parts[|parts| - 1])
  }

  function KindOfExtension(ext: string): string
  {
    if ext == "txt" then "ASCII text"
    else if ext == "md" then "Markdown document"
    else if ext == "log" then "log file"
    else if ext == "sh" then "shell script"
    else "text file"
  }

  /** The extension is what follows the last dot, or the whole name when
      there is no dot. */
  lemma ExtensionAfterLastDot(stem: string, ext: string)
    requires '.' !in ext
    ensures Extension(stem + "." + ext) == Lower(ext)
    ensures Extension(ext) == Lower(ext)
  {
    SplitLast(ext, '.');
    var s := stem + "." + ext;
    SplitLast(s, '.');
    var parts := Split(s, '.');
    var last := parts[|parts| - 1];
    assert s[|stem|] == '.';
    assert s[|s| - |ext|..] == ext;
    assert last == ext;
  }

  function FileCmd(root: Node, cursor: string, args: seq<string>): CommandResult
  {
    if |args| == 0 then Error("❌ Usage: file <filename>")
    else
      var filename := args[0];
      match FileAt(root, cursor, Resolve(cursor, filename))
      case None => Error("❌ File not found: " + filename)
      case Some(n) =>
        Output("📄 " + filename + ": " + if n.Directory? then "directory" else KindOfExtension(Extension(filename)))
  }

  // ---------------------------------------------------------------- find

  /** How `find` reports a node: the path it builds is always `/` and the
      node's own name, whatever the depth. */
  function FindReport(n: Node): string
  {
    Icon(n) + " /" + n.name + (if n.isUserCreated then " *" else "")
  }

  predicate NameMatches(n: Node, pattern: string)
  {
    Contains(Lower(n.name), pattern)
  }

  /** `searchNode`: the node first, then its children in order. */
  function FindIn(n: Node, pattern: string): seq<string>
    decreases n, 1
  {
    (if NameMatches(n, pattern) then [FindReport(n)] else []) +
    (if n.Directory? then FindInChildren(n, pattern, 0) else [])
  }

  function FindInChildren(parent: Node, pattern: string, i: nat): seq<string>
    requires parent.Directory?
    decreases parent, 0, |parent.children| - i
  {
    if i >= |parent.children| then []
    else FindIn(parent.children[i], pattern) + FindInChildren(parent, pattern, i + 1)
  }

  /** Every node of the tree, parents before children, siblings in order. */
  function Preorder(n: Node): seq<Node>
    decreases n, 1
  {
    [n] + (if n.Directory? then PreorderChildren(n, 0) else [])
  }

  function PreorderChildren(parent: Node, i: nat): seq<Node>
    requires parent.Directory?
    decreases parent, 0, |parent.children| - i
  {
    if i >= |parent.children| then []
    else Preorder(parent.children[i]) + PreorderChildren(parent, i + 1)
  }

  function Matching(nodes: seq<Node>, pattern: string): (r: seq<Node>)
    ensures forall k :: 0 <= k < |r| ==> r[k] in nodes && NameMatches(r[k], pattern)
  {
    if nodes == [] then []
    else (if NameMatches(nodes[0], pattern) then [nodes[0]] else []) + Matching(nodes[1..], pattern)
  }

  function Reports(nodes: seq<Node>): (r: seq<string>)
    ensures |r| == |nodes| && forall k :: 0 <= k < |nodes| ==> r[k] == FindReport(nodes[k])
  {
    seq(|nodes|, k requires 0 <= k < |nodes| => FindReport(nodes[k]))
  }

  lemma ReportsAppend(a: seq<Node>, b: seq<Node>)
    ensures Reports(a + b) == Reports(a) + Reports(b)
  {
    assert Reports(a + b) == Reports(a) + Reports(b);
  }

  lemma {:induction false} MatchingAppend(a: seq<Node>, b: seq<Node>, pattern: string)
    ensures Matching(a + b, pattern) == Matching(a, pattern) + Matching(b, pattern)
  {
    if a != [] {
      assert (a + b)[1..] == a[1..] + b;
      MatchingAppend(a[1..], b, pattern);
    } else {
      assert a + b == b;
    }
  }

  /** `find` reports exactly the nodes whose lower-cased name contains the
      pattern, in pre-order. */
  lemma {:induction false} FindIsFilteredPreorder(n: Node, pattern: string)
    ensures FindIn(n, pattern) == Reports(Matching(Preorder(n), pattern))
    decreases n, 1
  {
    var below := if n.Directory? then PreorderChildren(n, 0) else [];
    if n.Directory? {
      FindChildrenIsFilteredPreorder(n, pattern, 0);
    }
    MatchingAppend([n], below, pattern);
    assert [n][1..] == [];
    var head := Matching([n], pattern);
    assert Reports(head) == if NameMatches(n, pattern) then [FindReport(n)] else [];
    ReportsAppend(head, Matching(below, pattern));
  }

  lemma {:induction false} FindChildrenIsFilteredPreorder(parent: Node, pattern: string, i: nat)
    requires parent.Directory?
    ensures FindInChildren(parent, pattern, i) == Reports(Matching(PreorderChildren(parent, i), pattern))
    decreases parent, 0, |parent.children| - i
  {
    if i < |parent.children| {
      var c := parent.children[i];
      FindIsFilteredPreorder(c, pattern);
      FindChildrenIsFilteredPreorder(parent, pattern, i + 1);
      MatchingAppend(Preorder(c), PreorderChildren(parent, i + 1), pattern);
      ReportsAppend(Matching(Preorder(c), pattern), Matching(PreorderChildren(parent, i + 1), pattern));
    }
  }

  /** The pre-order visits every node of the tree once. */
  lemma {:induction false} PreorderCount(n: Node)
    ensures |Preorder(n)| == NodeCount(n)
    decreases n, 1
  {
    if n.Directory? {
      PreorderChildrenCount(n, 0);
    }
  }

  lemma {:induction false} PreorderChildrenCount(parent: Node, i: nat)
    requires parent.Directory?
    ensures |PreorderChildren(parent, i)| == ChildrenCount(parent, i)
    decreases parent, 0, |parent.children| - i
  {
    if i < |parent.children| {
      PreorderCount(parent.children[i]);
      PreorderChildrenCount(parent, i + 1);
    }
  }

  lemma {:induction false} MatchingShorter(nodes: seq<Node>, pattern: string)
    ensures |Matching(nodes, pattern)| <= |nodes|
  {
    if nodes != [] {
      MatchingShorter(nodes[1..], pattern);
    }
  }

  /** `find` reports at most one line per node of the tree. */
  lemma FindBound(root: Node, pattern: string)
    ensures |FindIn(root, pattern)| <= NodeCount(root)
  {
    FindIsFilteredPreorder(root, pattern);
    PreorderCount(root);
    MatchingShorter(Preorder(root), pattern);
  }

  function Find(root: Node, args: seq<string>): CommandResult
  {
    if |args| == 0 then Error("❌ Usage: find <pattern>")
    else
      var pattern := Lower(args[0]);
      var results := FindIn(root, pattern);
      if |results| == 0 then Output("🔍 No files found matching: " + pattern)
      else Output("🔍 Search results for \"" + pattern + "\":\n\n" + Join(results, "\n") +
                  "\n\n📊 Found " + NatToString(|results|) + " matches")
  }

  // ---------------------------------------------------------------- echo

  predicate IsQuote(c: char)
  {
    c == '"' || c == '\''
  }

  /** `s.replace(/^["']|["']$/g, '')`: one quote character is removed from
      the start, then one from the end of what is left. */
  function StripQuotes(s: string): (r: string)
    ensures |r| <= |s|
  {
    var t := if |s| > 0 && IsQuote(s[0]) then s[1..] else s;
    if |t| > 0 && IsQuote(t[|t| - 1]) then t[..|t| - 1] else t
  }

  /** Quoting text and stripping the quotes gives the text back, whatever it
      holds; text without a quote at either end is left alone. */
  lemma StripQuotesInverse(t: string, open: char, close: char)
    requires IsQuote(open) && IsQuote(close)
    ensures StripQuotes([open] + t + [close]) == t
    ensures t == "" || (!IsQuote(t[0]) && !IsQuote(t[|t| - 1])) ==> StripQuotes(t) == t
  {
    var s := [open] + t + [close];
    assert s[1..] == t + [close];
    assert (t + [close])[..|t|] == t;
  }

  datatype Redirect = Redirect(content: string, filename: string)

  /** `echo words > file`: the first `>` must have words before it and a
      file name after it. */
  function EchoRedirect(args: seq<string>): Option<Redirect>
  {
    match IndexOf(args, ">")
    case None => None
    case Some(i) =>
      if 0 < i < |args| - 1 then Some(Redirect(StripQuotes(Join(args[..i], " ")), args[i + 1]))
      else None
  }

  /** The redirection writes the unquoted words into the file named right
      after the first `>`. */
  lemma EchoRedirectReads(words: seq<string>, filename: string, rest: seq<string>)
    requires |words| > 0 && ">" !in words
    ensures EchoRedirect(words + [">", filename] + rest) == Some(Redirect(StripQuotes(Join(words, " ")), filename))
  {
    var args := words + [">", filename] + rest;
    assert args[|words|] == ">";
    var i := IndexOf(args, ">").value;
    assert args[..i] == words;
  }

  /** A `>` first or last is no redirection: the line is echoed. */
  lemma EchoWithoutTarget(args: seq<string>)
    requires |args| > 0 && (args[0] == ">" || (">" !in args[..|args| - 1]))
    ensures EchoRedirect(args).None?
  {
  }

  // ------------------------------------------------------ state changes

  /** `cd`'s destination: `/` without an argument, otherwise the resolved
      argument when it names a directory. */
  function CdTarget(root: Node, cursor: string, args: seq<string>): Option<string>
  {
    if |args| == 0 then Some("/")
    else
      var resolved := Resolve(cursor, args[0]);
      match FileAt(root, cursor, resolved)
      case Some(n) => if n.Directory? then Some(resolved) else None
      case None => None
  }

  function CdAnswer(root: Node, cursor: string, args: seq<string>): CommandResult
  {
    if |args| == 0 then System("📁 Changed to root directory")
    else
      var resolved := Resolve(cursor, args[0]);
      match FileAt(root, cursor, resolved)
      case None => Error("❌ Directory not found: " + args[0])
      case Some(n) =>
        if n.Directory? then System("📁 Changed directory to: " + resolved)
        else Error("❌ Not a directory: " + args[0])
  }

  /** After a successful `cd` the current directory is the directory the
      argument names (the root without an argument); a failed `cd` names
      nothing or a file. */
  lemma CdLandsOnTarget(root: Node, cursor: string, args: seq<string>)
    requires root.Directory?
    ensures CdTarget(root, cursor, args).Some? ==>
      var d := DirectoryAt(root, StripTrailingSlash(CdTarget(root, cursor, args).value));
      d.Directory? && (if |args| == 0 then d == root else Some(d) == FileAt(root, cursor, args[0]))
    ensures CdTarget(root, cursor, args).None? <==>
      |args| > 0 && (FileAt(root, cursor, args[0]).None? || FileAt(root, cursor, args[0]).value.File?)
    ensures CdAnswer(root, cursor, args).Error? <==> CdTarget(root, cursor, args).None?
  {
    if |args| == 0 {
      RootSegments();
      assert StripTrailingSlash("/") == "/";
    } else {
      CdToArgument(root, cursor, args[0]);
    }
  }

  lemma CdToArgument(root: Node, cursor: string, path: string)
    ensures var resolved := Resolve(cursor, path);
      FileAt(root, cursor, resolved) == FileAt(root, cursor, path) &&
      DirectoryAt(root, StripTrailingSlash(resolved)) == FileAt(root, cursor, path).GetOr(root)
  {
    var resolved := Resolve(cursor, path);
    ResolveIdempotent(cursor, cursor, path);
    StripKeepsSegments(resolved);
  }

  method Cd(fs: FileSystem, args: seq<string>) returns (r: CommandResult)
    requires fs.Valid()
    modifies fs
    ensures fs.Valid() && fs.root == old(fs.root)
    ensures r == CdAnswer(old(fs.root), old(fs.currentPath), args)
    ensures match CdTarget(old(fs.root), old(fs.currentPath), args)
      case None => fs.currentPath == old(fs.currentPath) && fs.pathHistory == old(fs.pathHistory)
      case Some(p) =>
        fs.currentPath == StripTrailingSlash(p) &&
        fs.pathHistory == KeepLast(old(fs.pathHistory) + [fs.currentPath], MaxPathHistory)
  {
    if |args| == 0 {
      fs.SetCurrentPath("/");
      return System("📁 Changed to root directory");
    }
    var resolved := Resolve(fs.currentPath, args[0]);
    var target := fs.GetFileAtPath(resolved);
    if target.None? {
      return Error("❌ Directory not found: " + args[0]);
    }
    if !target.value.Directory? {
      return Error("❌ Not a directory: " + args[0]);
    }
    fs.SetCurrentPath(resolved);
    r := System("📁 Changed directory to: " + resolved);
  }

  /** How `mkdir`, `touch` and `echo >` report a creation. */
  function CreateAnswer(success: bool, icon: string, message: string): CommandResult
  {
    if success then System(icon + " " + message) else Error("❌ " + message)
  }

  /** `mkdir name` (in the current directory) and `touch name` (an empty file). */
  method MakeEntry(fs: FileSystem, args: seq<string>, isDirectory: bool, now: string) returns (r: CommandResult)
    requires fs.Valid()
    modifies fs
    ensures fs.Valid()
    ensures fs.currentPath == old(fs.currentPath) && fs.pathHistory == old(fs.pathHistory)
    ensures |args| == 0 ==>
      r == Error(if isDirectory then "❌ Usage: mkdir <directory_name>" else "❌ Usage: touch <filename>") &&
      fs.root == old(fs.root)
    ensures |args| > 0 ==>
      var cursor := old(fs.currentPath);
      var segs := Segments(Resolve(cursor, cursor));
      var o := CreateCheck(old(fs.root), segs, args[0]);
      var entry := if isDirectory then NewDirectory(args[0], now) else NewFile(args[0], "", now);
      r == CreateAnswer(o.Created?, if isDirectory then "📁" else "📄", CreateMessage(o, isDirectory, args[0], cursor)) &&
      fs.root == if o.Created? then WithChild(old(fs.root), segs, entry) else old(fs.root)
  {
    if |args| == 0 {
      return Error(if isDirectory then "❌ Usage: mkdir <directory_name>" else "❌ Usage: touch <filename>");
    }
    var success, message;
    if isDirectory {
      success, message := fs.CreateDirectory(args[0], "", now);
    } else {
      success, message := fs.CreateFile(args[0], "", "", now);
    }
    r := CreateAnswer(success, if isDirectory then "📁" else "📄", message);
  }

  /** `rm name`: `/`, `.` and `..` are refused before the file system is asked. */
  method Rm(fs: FileSystem, args: seq<string>) returns (r: CommandResult)
    requires fs.Valid()
    modifies fs
    ensures fs.Valid()
    ensures fs.currentPath == old(fs.currentPath) && fs.pathHistory == old(fs.pathHistory)
    ensures |args| == 0 ==> r == Error("❌ Usage: rm <filename_or_directory>") && fs.root == old(fs.root)
    ensures |args| > 0 && args[0] in ["/", ".", ".."] ==>
      r == Error("❌ Cannot delete system directories") && fs.root == old(fs.root)
    ensures |args| > 0 && args[0] !in ["/", ".", ".."] ==>
      var cursor := old(fs.currentPath);
      var o := DeleteCheck(old(fs.root), Resolve(cursor, cursor), args[0]);
      var message := DeleteMessage(o, args[0], cursor);
      r == (if o.Removed? then System("🗑️  " + message) else Error("❌ " + message)) &&
      fs.root == if o.Removed? then WithoutChild(old(fs.root), Segments(Resolve(cursor, cursor)), args[0]) else old(fs.root)
  {
    if |args| == 0 {
      return Error("❌ Usage: rm <filename_or_directory>");
    }
    if args[0] in ["/", ".", ".."] {
      return Error("❌ Cannot delete system directories");
    }
    var success, message := fs.DeleteEntry(args[0], "");
    r := if success then System("🗑️  " + message) else Error("❌ " + message);
  }

  /** `echo`: with a redirection the text becomes a new file in the current
      directory; otherwise the unquoted text is printed. */
  method Echo(fs: FileSystem, args: seq<string>, now: string) returns (r: CommandResult)
    requires fs.Valid()
    modifies fs
    ensures fs.Valid()
    ensures fs.currentPath == old(fs.currentPath) && fs.pathHistory == old(fs.pathHistory)
    ensures |args| == 0 ==> r == Output("") && fs.root == old(fs.root)
    ensures |args| > 0 && EchoRedirect(args).None? ==>
      r == Output(StripQuotes(Join(args, " "))) && fs.root == old(fs.root)
    ensures |args| > 0 && EchoRedirect(args).Some? ==>
      var d := EchoRedirect(args).value;
      var cursor := old(fs.currentPath);
      var segs := Segments(Resolve(cursor, cursor));
      var o := CreateCheck(old(fs.root), segs, d.filename);
      r == CreateAnswer(o.Created?, "📄", CreateMessage(o, false, d.filename, cursor)) &&
      fs.root == if o.Created? then WithChild(old(fs.root), segs, NewFile(d.filename, d.content, now)) else old(fs.root)
  {
    if |args| == 0 {
      return Output("");
    }
    var redirect := EchoRedirect(args);
    if redirect.Some? {
      var success, message := fs.CreateFile(redirect.value.filename, redirect.value.content, "", now);
      return CreateAnswer(success, "📄", message);
    }
    r := Output(StripQuotes(Join(args, " ")));
  }

  const ResetMessage := "🔄 File system reset to initial state. All user-created files and directories have been removed."

  /** The entries of the `fileSystemCommands` object. */
  datatype FsCommand =
    | LsCommand | CdCommand | PwdCommand | CatCommand | TreeCommand | MkdirCommand | TouchCommand
    | RmCommand | ResetCommand | FindCommand | GrepCommand | HeadCommand | TailCommand | WcCommand
    | FileCommand | EchoCommand | TestCommand
  {
    /** The command's position in `Registry`. */
    function Index(): (k: nat)
      ensures k < |Registry|
    {
      match this
      case LsCommand => 0 case CdCommand => 1 case PwdCommand => 2 case CatCommand => 3
      case TreeCommand => 4 case MkdirCommand => 5 case TouchCommand => 6 case RmCommand => 7
      case ResetCommand => 8 case FindCommand => 9 case GrepCommand => 10 case HeadCommand => 11
      case TailCommand => 12 case WcCommand => 13 case FileCommand => 14 case EchoCommand => 15
      case TestCommand => 16
    }

    /** The commands that change the file-system state. */
    predicate Mutates()
    {
      CdCommand? || MkdirCommand? || TouchCommand? || RmCommand? || ResetCommand? || EchoCommand?
    }
  }

  /** The command at registry position `k`. */
  function CommandAt(k: nat): (c: FsCommand)
    requires k < |Registry|
    ensures c.Index() == k
  {
    [LsCommand, CdCommand, PwdCommand, CatCommand, TreeCommand, MkdirCommand, TouchCommand, RmCommand,
     ResetCommand, FindCommand, GrepCommand, HeadCommand, TailCommand, WcCommand, FileCommand,
     EchoCommand, TestCommand][k]
  }

  /** The registry key of a command. */
  function NameOf(c: FsCommand): string
  {
    Registry[c.Index()].name
  }

  /** The command whose key is `name`, if any. */
  function CommandNamed(name: string): (r: Option<FsCommand>)
    ensures r.Some? ==> NameOf(r.value) == name
    ensures r.None? ==> name !in CommandRegistry.Names(Registry)
  {
    match IndexOf(CommandRegistry.Names(Registry), name)
    case None => None
    case Some(k) => Some(CommandAt(k))
  }

  /** The commands that only read the state, as functions of tree and cursor. */
  function Query(root: Node, cursor: string, c: FsCommand, args: seq<string>): CommandResult
    requires !c.Mutates()
  {
    match c
    case LsCommand => Ls(root, cursor, args)
    case PwdCommand => Pwd(cursor)
    case CatCommand => Cat(root, cursor, args)
    case TreeCommand => Tree(root)
    case FindCommand => Find(root, args)
    case GrepCommand => Grep(root, cursor, args)
    case HeadCommand => Head(root, cursor, args)
    case TailCommand => Tail(root, cursor, args)
    case WcCommand => Wc(root, cursor, args)
    case FileCommand => FileCmd(root, cursor, args)
    case TestCommand => System("✅ File system commands are properly integrated!")
  }

  /** Runs one file-system command.  Commands that only read leave the state
      alone and answer as `Query` says. */
  method Execute(fs: FileSystem, c: FsCommand, args: seq<string>, now: string) returns (r: CommandResult)
    requires fs.Valid()
    modifies fs
    ensures fs.Valid()
    ensures !c.Mutates() ==>
      r == Query(old(fs.root), old(fs.currentPath), c, args) &&
      fs.root == old(fs.root) && fs.currentPath == old(fs.currentPath) && fs.pathHistory == old(fs.pathHistory)
    ensures c.ResetCommand? ==> r == System(ResetMessage)
  {
    if c.Mutates() {
      r := Update(fs, c, args, now);
    } else {
      r := Query(fs.root, fs.currentPath, c, args);
    }
  }

  /** The commands that change the state; each one's own contract says how. */
  method Update(fs: FileSystem, c: FsCommand, args: seq<string>, now: string) returns (r: CommandResult)
    requires fs.Valid() && c.Mutates()
    modifies fs
    ensures fs.Valid()
    ensures c.ResetCommand? ==> r == System(ResetMessage)
  {
    match c {
      case CdCommand => r := Cd(fs, args);
      case MkdirCommand => r := MakeEntry(fs, args, true, now);
      case TouchCommand => r := MakeEntry(fs, args, false, now);
      case RmCommand => r := Rm(fs, args);
      case ResetCommand =>
        fs.Reset();
        r := System(ResetMessage);
      case EchoCommand => r := Echo(fs, args, now);
    }
  }
}
