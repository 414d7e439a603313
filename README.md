# Portfolio terminals, in Dafny

This project models the interactive parts of the ModernPortfolioUI portfolio site and proves properties of them:

- **The security-sandbox terminal.**
  - Its virtual Linux-style file system: a seeded tree, a cursor and a bounded path history.
  - Path resolution, validated creation and deletion, reset, size formatting and the tree view.
  - The file-system commands (`ls`, `cd`, `cat`, `grep`, `head`, `tail`, `wc`, `find`, `file`, `echo`, `mkdir`, `touch`, `rm`, `reset`, ...).
  - The sandbox's own commands and their privilege state (visitor or administrator, firewall, monitoring).
  - Command lookup and suggestions.
  - The session hook (`useTerminalEngine`): a log capped at 200 entries, the command history with arrow-key recall, and AI mode.
- **The portfolio's own terminal.**
  - Its fifteen commands.
  - Its session hook (`useTerminal`): an unbounded log, animations, AI mode and auto-completion.
- **The input line's prompt**, with `~` for the root.
- **The mobile on-screen keyboard.**
- **Device classification** by window width.
- **The back end's rule-based chat replies.**

## How the model is laid out

The modules follow the program.

| module | models |
|---|---|
| `FsTree` | the tree |
| `VirtualFileSystem` | the mutable file-system state, as a class |
| `SeedTree` | the initial tree |
| `FsCommands` | the file-system commands |
| `CyberpunkCommands` | the sandbox registry and its privilege state, as a class |
| `LibCommands` | the portfolio terminal's registry |
| `CommandRegistry` | the lookup and suggestion algorithms both registries share |
| `Session` | line splitting, the unknown-command message and history recall, shared by both terminals |
| `TerminalEngine` | the sandbox session, as a class |
| `PortfolioTerminal` | the portfolio session, as a class |
| `Prompt` | the input line's prompt |
| `VirtualKeyboard` | the mobile keyboard |
| `DeviceDetection` | device classification |
| `Chatbot` | the chat replies |

`Text` models the JavaScript string and array built-ins the code relies on, such as `trim`, `split`, `join`, `slice`, `padStart` and `parseInt`.

Where the code updates state in place, the model is a class whose methods are proved against pure functions. This applies to:

- the file system;
- the privilege state;
- both sessions;
- the keyboard.

The properties proved include:

- **Paths:** resolution round-trips and idempotence.
- **Edits:** creation and deletion keep names unique and valid, and keep user-created subtrees closed. Creation never breaks an existing path. Deletion only ever removes user-created nodes.
- **Commands:**
  - `find` reports exactly the matching nodes, in pre-order with each directory's children in creation order, and `grep` exactly the matching lines, in file order;
  - the tree view is one line per node;
  - the privilege machine never lets a visitor switch the firewall on;
  - lookup prefers keys to aliases;
  - suggestions are complete below their cap.
- **Sessions:** the sandbox log is always the newest 200 entries; history recall walks back and forth; a disconnect line always leaves AI mode.
- **Keyboard:** shift is one-shot; the suggestion buttons type their word.
- **Chat:** the first matching topic wins, and a reply is the fallback exactly when no keyword occurs.

Two facts of the code as written are stated as lemmas rather than corrected:

1. The sandbox looks the whole typed line up as a command name. A file-system command that was found therefore always receives no arguments (`CyberpunkCommands.FsCommandsGetNoArguments`).
2. The chat bot matches keywords as plain substrings, so `this` counts as a greeting (`Chatbot.GreetingWins`).

## Model

| member | source | states |
|---|---|---|
| Text.Lower | frontend/src/features/cyberpunk-os/terminal/commands.ts:627 | lower-casing keeps the length and maps every character on its own |
| Text.Upper | frontend/src/components/mobile/VirtualKeyboard.tsx:60 | upper-casing keeps the length and maps every character on its own |
| Text.TrimProperties | frontend/src/hooks/useTerminal.ts:150-152 | a trimmed line is empty exactly when the line is white space only; otherwise it starts and ends with a non-space |
| Text.TrimLower | frontend/src/features/cyberpunk-os/terminal/commands.ts:627 | lower-casing then trimming is trimming then lower-casing |
| Text.TrimIdempotent | frontend/src/features/cyberpunk-os/hooks/useTerminalEngine.ts:191 | trimming a trimmed line changes nothing |
| Text.Split | frontend/src/features/cyberpunk-os/terminal/virtualFileSystem.ts:661 | a split has at least one piece and no piece holds the separator |
| Text.SplitJoin | frontend/src/features/cyberpunk-os/terminal/virtualFileSystem.ts:692 | splitting a join of separator-free pieces gives the pieces back |
| Text.JoinSplit | frontend/src/features/cyberpunk-os/terminal/fileSystemCommands.ts:358 | joining the pieces of a split gives the string back |
| Text.SplitCount | frontend/src/features/cyberpunk-os/terminal/fileSystemCommands.ts:506 | a split has one piece more than there are separators |
| Text.SplitTrailingSep | frontend/src/features/cyberpunk-os/terminal/fileSystemCommands.ts:358 | a trailing separator adds exactly one empty piece |
| Text.NonEmpty | frontend/src/features/cyberpunk-os/terminal/virtualFileSystem.ts:661 | `filter(Boolean)` keeps only non-empty pieces of the input |
| Text.ContainsAt | backend/chat/chatbot.py:13 | substring containment holds exactly when the substring occurs at some position |
| Text.SplitSpace | frontend/src/features/cyberpunk-os/terminal/fileSystemCommands.ts:506 | splitting at every white-space character gives at least one piece, and no piece holds white space |
| Text.Words | frontend/src/features/cyberpunk-os/terminal/fileSystemCommands.ts:506 | the words of a text are non-empty and hold no white space |
| Text.WordsOfJoin | frontend/src/features/cyberpunk-os/terminal/fileSystemCommands.ts:506 | words joined by single spaces split back into those words |
| Text.IndexOf | frontend/src/features/cyberpunk-os/terminal/fileSystemCommands.ts:580 | `indexOf` finds the first occurrence, and fails only when there is none |
| Text.SliceIndex | frontend/src/features/cyberpunk-os/terminal/fileSystemCommands.ts:462 | `slice` counts a negative index from the end and clamps to the bounds |
| Text.PadStart | frontend/src/features/cyberpunk-os/terminal/fileSystemCommands.ts:55 | `padStart` reaches the width and ends with the original text |
| Text.PadEnd | frontend/src/features/cyberpunk-os/terminal/commands.ts:448 | `padEnd` reaches the width and starts with the original text |
| Text.NatToString | frontend/src/features/cyberpunk-os/terminal/fileSystemCommands.ts:47 | a number prints as a non-empty run of digits |
| Text.DigitRun | frontend/src/features/cyberpunk-os/terminal/fileSystemCommands.ts:393 | `parseInt` reads the longest leading run of digits |
| Text.ParseIntOfIntToString | frontend/src/features/cyberpunk-os/terminal/fileSystemCommands.ts:393 | `parseInt` of a printed integer gives the integer back |
| FsTree.ChildIndex | frontend/src/features/cyberpunk-os/terminal/virtualFileSystem.ts:665-666 | a child lookup finds a child with exactly that name |
| FsTree.ChildIndexFirst | frontend/src/features/cyberpunk-os/terminal/virtualFileSystem.ts:665-666 | a child lookup finds the first child with the name, and fails only when none has it |
| FsTree.WalkAppend | frontend/src/features/cyberpunk-os/terminal/virtualFileSystem.ts:716-722 | walking `a + b` is walking `a`, then `b` from where `a` ended |
| FsTree.WalkSucceedsIff | frontend/src/features/cyberpunk-os/terminal/virtualFileSystem.ts:716-722 | a walk fails exactly when some segment is not a child of the node reached so far |
| FsTree.SetAt | frontend/src/features/cyberpunk-os/terminal/virtualFileSystem.ts:763 | rebuilding the tree after a change below the root keeps the root's name, origin and number of children |
| FsTree.SetAtWalkBelow | frontend/src/features/cyberpunk-os/terminal/virtualFileSystem.ts:763 | below the changed node, the new tree holds the new subtree |
| FsTree.SetAtWalkOther | frontend/src/features/cyberpunk-os/terminal/virtualFileSystem.ts:763 | away from the changed node and its ancestors, every path resolves as before |
| FsTree.SetAtWalkAncestor | frontend/src/features/cyberpunk-os/terminal/virtualFileSystem.ts:763 | each ancestor of the changed node is that ancestor with the change made below it |
| FsTree.SetAtKeepsInvariants | frontend/src/features/cyberpunk-os/terminal/virtualFileSystem.ts:763 | replacing a node by a well-formed, closed one keeps the whole tree well-formed and closed |
| FsTree.ChildAfterAdd | frontend/src/features/cyberpunk-os/terminal/virtualFileSystem.ts:763-771 | after adding a child, its name finds it and every other lookup is unchanged |
| FsTree.ChildAfterRemove | frontend/src/features/cyberpunk-os/terminal/virtualFileSystem.ts:862 | after deleting a child, its name is gone and every other lookup finds the same node |
| FsTree.InsertEffect | frontend/src/features/cyberpunk-os/terminal/virtualFileSystem.ts:763-771 | after a creation, paths under the new entry lead into it and every unrelated path resolves as before |
| FsTree.RemoveEffect | frontend/src/features/cyberpunk-os/terminal/virtualFileSystem.ts:862 | after a deletion, paths under the deleted entry no longer resolve and every unrelated path resolves as before |
| FsTree.AddChildKeepsInvariants | frontend/src/features/cyberpunk-os/terminal/virtualFileSystem.ts:752-771 | adding a fresh, validly named, user-created child keeps names unique and valid, and user-created subtrees closed |
| FsTree.RemoveChildKeepsInvariants | frontend/src/features/cyberpunk-os/terminal/virtualFileSystem.ts:862 | deleting a child keeps the directory well-formed and closed |
| VirtualFileSystem.Segments | frontend/src/features/cyberpunk-os/terminal/virtualFileSystem.ts:661 | the segments of a path are non-empty and slash-free |
| VirtualFileSystem.Resolve | frontend/src/features/cyberpunk-os/terminal/virtualFileSystem.ts:675-693 | a resolved path is absolute |
| VirtualFileSystem.ApplySegmentsClean | frontend/src/features/cyberpunk-os/terminal/virtualFileSystem.ts:684-690 | the push/pop loop keeps segments non-empty and slash-free |
| VirtualFileSystem.RootedRoundTrip | frontend/src/features/cyberpunk-os/terminal/virtualFileSystem.ts:692 | rendering segments from the root and splitting again gives them back |
| VirtualFileSystem.ResolveSegments | frontend/src/features/cyberpunk-os/terminal/virtualFileSystem.ts:680-692 | a resolved relative path denotes the cursor's segments with the path's segments applied |
| VirtualFileSystem.ResolveIdempotent | frontend/src/features/cyberpunk-os/terminal/virtualFileSystem.ts:676-678 | resolving a resolved path changes nothing, whatever the cursor |
| VirtualFileSystem.AbsoluteDotDotKept | frontend/src/features/cyberpunk-os/terminal/virtualFileSystem.ts:676-678 | absolute paths are not normalised: `/<dir>/..` keeps its `..` |
| VirtualFileSystem.RootSegments | frontend/src/features/cyberpunk-os/terminal/virtualFileSystem.ts:654 | `/` denotes the root |
| VirtualFileSystem.StripKeepsSegments | frontend/src/features/cyberpunk-os/terminal/virtualFileSystem.ts:701 | removing a trailing slash does not change which node a path denotes |
| VirtualFileSystem.KeepLast | frontend/src/features/cyberpunk-os/terminal/virtualFileSystem.ts:706-708 | the kept history is the newest `n` entries, or all of them when there are no more than `n`, so it ends with the newest path |
| VirtualFileSystem.CreateCheck | frontend/src/features/cyberpunk-os/terminal/virtualFileSystem.ts:735-759 | creation succeeds exactly when the target resolves to a directory that lacks the name and the name is valid |
| VirtualFileSystem.DeleteCheck | frontend/src/features/cyberpunk-os/terminal/virtualFileSystem.ts:831-859 | deletion succeeds exactly when it is not the root, the target is a directory, and it holds a user-created child with the name |
| VirtualFileSystem.CreateKeepsInvariants | frontend/src/features/cyberpunk-os/terminal/virtualFileSystem.ts:728-774 | a successful creation keeps names unique and valid, and user-created subtrees closed |
| VirtualFileSystem.NewEntriesWellFormed | frontend/src/features/cyberpunk-os/terminal/virtualFileSystem.ts:763-771 | the entries `mkdir` and `touch` create are well-formed user-created leaves |
| VirtualFileSystem.DeleteKeepsInvariants | frontend/src/features/cyberpunk-os/terminal/virtualFileSystem.ts:825-866 | a deletion keeps the same invariants |
| VirtualFileSystem.DeleteOnlyRemovesUserNodes | frontend/src/features/cyberpunk-os/terminal/virtualFileSystem.ts:856-862 | every path a deletion breaks led to a user-created node, so seeded files survive |
| VirtualFileSystem.UnderUserChild | frontend/src/features/cyberpunk-os/terminal/virtualFileSystem.ts:856-859 | every node under a user-created child is user-created |
| VirtualFileSystem.CreateKeepsPaths | frontend/src/features/cyberpunk-os/terminal/virtualFileSystem.ts:763 | creating an entry never makes an existing path stop resolving |
| VirtualFileSystem.UnderMissingChild | frontend/src/features/cyberpunk-os/terminal/virtualFileSystem.ts:736-740 | no path through a missing child resolves |
| VirtualFileSystem.FileSystem.constructor | frontend/src/features/cyberpunk-os/terminal/virtualFileSystem.ts:653-657 | the state starts as a copy of the seed, with the cursor and history at `/` |
| VirtualFileSystem.FileSystem.FindNode | frontend/src/features/cyberpunk-os/terminal/virtualFileSystem.ts:714-724 | the walking loop returns the node the segments lead to, if any |
| VirtualFileSystem.FileSystem.GetCurrentDirectory | frontend/src/features/cyberpunk-os/terminal/virtualFileSystem.ts:660-673 | the node at the cursor, or the root when the cursor does not resolve |
| VirtualFileSystem.FileSystem.GetFileAtPath | frontend/src/features/cyberpunk-os/terminal/virtualFileSystem.ts:711-725 | the node a resolved path denotes, if any |
| VirtualFileSystem.FileSystem.SetCurrentPath | frontend/src/features/cyberpunk-os/terminal/virtualFileSystem.ts:700-709 | the cursor becomes the path minus a trailing slash; the history gains it and keeps its last 50 |
| VirtualFileSystem.FileSystem.CreateDirectory | frontend/src/features/cyberpunk-os/terminal/virtualFileSystem.ts:728-774 | success and message follow the first failing check; on success the tree gains the directory, otherwise it is unchanged |
| VirtualFileSystem.FileSystem.CreateFile | frontend/src/features/cyberpunk-os/terminal/virtualFileSystem.ts:776-823 | success and message follow the first failing check; on success the tree gains the file, otherwise it is unchanged |
| VirtualFileSystem.FileSystem.DeleteEntry | frontend/src/features/cyberpunk-os/terminal/virtualFileSystem.ts:825-866 | success and message follow the first failing check; on success the child is gone, otherwise the tree is unchanged |
| VirtualFileSystem.FileSystem.Reset | frontend/src/features/cyberpunk-os/terminal/virtualFileSystem.ts:869-873 | the tree is the seed again, with the cursor and history at `/` |
| SeedTree.SeedInvariants | frontend/src/features/cyberpunk-os/terminal/virtualFileSystem.ts:38-650 | the initial tree has unique, valid names in every directory and no user-created node |
| FsTree.WalkNoUserNodes | frontend/src/features/cyberpunk-os/terminal/virtualFileSystem.ts:857-859 | every node reached in a tree with no user-created node is itself not user-created, so the deletion check refuses it |
| VirtualFileSystem.UnitIndexUnique | frontend/src/features/cyberpunk-os/terminal/virtualFileSystem.ts:877-884 | the chosen unit is the largest one not above the size, capped at GB |
| VirtualFileSystem.RoundedTenthsNearest | frontend/src/features/cyberpunk-os/terminal/virtualFileSystem.ts:886 | the printed tenths are within half a tenth of the exact size in that unit |
| VirtualFileSystem.FormatFileSize | frontend/src/features/cyberpunk-os/terminal/virtualFileSystem.ts:875-887 | the dividing loop gives the size text of the reference definition |
| VirtualFileSystem.TreeLinesShape | frontend/src/features/cyberpunk-os/terminal/virtualFileSystem.ts:889-910 | the tree view has one non-empty, newline-free line per node, except a root named `/` |
| VirtualFileSystem.TreeViewIsJoin | frontend/src/features/cyberpunk-os/terminal/virtualFileSystem.ts:903-909 | re-splitting each child's text and dropping empty pieces loses and adds no line |
| VirtualFileSystem.TreeOfRoot | frontend/src/features/cyberpunk-os/terminal/virtualFileSystem.ts:889-910 | the whole tree's view is one line per node below the root, in pre-order with each directory's children in creation order |
| FsCommands.CheckFileMeaning | frontend/src/features/cyberpunk-os/terminal/fileSystemCommands.ts:139-155 | the double resolution of a file argument lands on the node the argument names |
| FsCommands.LongEntries | frontend/src/features/cyberpunk-os/terminal/fileSystemCommands.ts:48-56 | one long row per entry, in the order of the given entries |
| FsCommands.ShortEntries | frontend/src/features/cyberpunk-os/terminal/fileSystemCommands.ts:65-69 | one short item per entry, in the order of the given entries |
| FsCommands.LsLongLines | frontend/src/features/cyberpunk-os/terminal/fileSystemCommands.ts:46-61 | `ls -l` is a header counting the entries, then one row per entry, in the directory's child order (creation order) |
| FsCommands.MatchIndices | frontend/src/features/cyberpunk-os/terminal/fileSystemCommands.ts:361-365 | every reported position holds a line that matches the lower-cased pattern |
| FsCommands.MatchIndicesComplete | frontend/src/features/cyberpunk-os/terminal/fileSystemCommands.ts:361-365 | every matching line is reported, in increasing order |
| FsCommands.GreppedNumbersMatches | frontend/src/features/cyberpunk-os/terminal/fileSystemCommands.ts:358-365 | `grep` prints exactly the matching lines, in file order, each with its number |
| FsCommands.CollectMatches | frontend/src/features/cyberpunk-os/terminal/fileSystemCommands.ts:359-365 | the collecting loop gives what the reference definition collects |
| FsCommands.LineCountArg | frontend/src/features/cyberpunk-os/terminal/fileSystemCommands.ts:393 | the line count is never 0, and is 10 without `-n` |
| FsCommands.LineCountArgReads | frontend/src/features/cyberpunk-os/terminal/fileSystemCommands.ts:393 | `-n <count>` sets any non-zero count |
| FsCommands.HeadSlice | frontend/src/features/cyberpunk-os/terminal/fileSystemCommands.ts:417 | `head` keeps the first n lines, or all but the last -n for a negative count |
| FsCommands.TailSlice | frontend/src/features/cyberpunk-os/terminal/fileSystemCommands.ts:462 | `tail` keeps the last n lines, or all but the first -n for a negative count |
| FsCommands.WcCounts | frontend/src/features/cyberpunk-os/terminal/fileSystemCommands.ts:505-507 | `wc` counts one line more than there are line breaks, and the words of space-separated text |
| FsCommands.SharedFileErrors | frontend/src/features/cyberpunk-os/terminal/fileSystemCommands.ts:131-515 | `cat`, `grep`, `head`, `tail` and `wc` answer a missing argument, a missing file, a directory and an empty file alike |
| FsCommands.ExtensionAfterLastDot | frontend/src/features/cyberpunk-os/terminal/fileSystemCommands.ts:542 | the extension is what follows the last dot, lower-cased, or the whole name without a dot |
| FsCommands.Matching | frontend/src/features/cyberpunk-os/terminal/fileSystemCommands.ts:290 | the kept nodes are nodes of the input whose lower-cased name holds the pattern |
| FsCommands.Reports | frontend/src/features/cyberpunk-os/terminal/fileSystemCommands.ts:291 | one report per kept node, in the order of the given nodes |
| FsCommands.FindIsFilteredPreorder | frontend/src/features/cyberpunk-os/terminal/fileSystemCommands.ts:289-306 | `find` reports exactly the matching nodes, in pre-order with each directory's children in creation order |
| FsCommands.PreorderCount | frontend/src/features/cyberpunk-os/terminal/fileSystemCommands.ts:296-302 | the search visits every node once |
| FsCommands.FindBound | frontend/src/features/cyberpunk-os/terminal/fileSystemCommands.ts:289-306 | `find` reports at most one line per node |
| FsCommands.StripQuotes | frontend/src/features/cyberpunk-os/terminal/fileSystemCommands.ts:593 | removing quotes never lengthens the text |
| FsCommands.StripQuotesInverse | frontend/src/features/cyberpunk-os/terminal/fileSystemCommands.ts:582 | quoting text and removing the quotes gives it back; unquoted text is left alone |
| FsCommands.EchoRedirectReads | frontend/src/features/cyberpunk-os/terminal/fileSystemCommands.ts:580-590 | `echo words > file` writes the unquoted words into the file named right after the first `>` |
| FsCommands.EchoWithoutTarget | frontend/src/features/cyberpunk-os/terminal/fileSystemCommands.ts:581 | a `>` first or last is no redirection |
| FsCommands.CdLandsOnTarget | frontend/src/features/cyberpunk-os/terminal/fileSystemCommands.ts:81-116 | after a successful `cd` the current directory is the one the argument names; `cd` fails exactly on a missing path or a file |
| FsCommands.CdToArgument | frontend/src/features/cyberpunk-os/terminal/fileSystemCommands.ts:91-109 | the resolved argument denotes the same node as the argument |
| FsCommands.Cd | frontend/src/features/cyberpunk-os/terminal/fileSystemCommands.ts:78-117 | the answer and the new cursor and history; the tree is unchanged |
| FsCommands.MakeEntry | frontend/src/features/cyberpunk-os/terminal/fileSystemCommands.ts:190-230 | `mkdir` and `touch`: a usage error without an argument, otherwise creation in the current directory as `createDirectory`/`createFile` decide |
| FsCommands.Rm | frontend/src/features/cyberpunk-os/terminal/fileSystemCommands.ts:232-261 | `/`, `.` and `..` are refused; otherwise deletion in the current directory as `deleteFileOrDirectory` decides |
| FsCommands.Echo | frontend/src/features/cyberpunk-os/terminal/fileSystemCommands.ts:568-599 | with a redirection a file is created with the text; otherwise the unquoted text is printed and the tree is unchanged |
| FsCommands.CommandAt | frontend/src/features/cyberpunk-os/terminal/fileSystemCommands.ts:20-610 | each registry position holds the command with that position |
| FsCommands.CommandNamed | frontend/src/features/cyberpunk-os/terminal/fileSystemCommands.ts:613 | a name selects the command with that key, and fails only for names not in the registry |
| FsCommands.Execute | frontend/src/features/cyberpunk-os/terminal/fileSystemCommands.ts:20-610 | read-only commands answer as their pure definitions and leave the state alone; `reset` answers its message |
| CommandRegistry.Names | frontend/src/features/cyberpunk-os/terminal/fileSystemCommands.ts:613 | the keys of a registry, in declaration order |
| CommandRegistry.AliasFrom | frontend/src/features/cyberpunk-os/terminal/commands.ts:636-641 | the alias scan finds the first entry listing the line as an alias, and fails only when none does |
| CommandRegistry.Find | frontend/src/features/cyberpunk-os/terminal/commands.ts:626-648 | a found entry answers to the normalised line |
| CommandRegistry.FindComplete | frontend/src/lib/terminal/commands.ts:310-326 | lookup fails exactly when no entry answers to the normalised line |
| CommandRegistry.FindPrefersKeys | frontend/src/features/cyberpunk-os/terminal/commands.ts:630-641 | a key beats every alias; without a key the first alias wins |
| CommandRegistry.FindByName | frontend/src/lib/terminal/commands.ts:314-316 | a line selects the first entry with its name |
| CommandRegistry.FindByAlias | frontend/src/lib/terminal/commands.ts:319-323 | a line that names no entry selects the first entry listing it as an alias |
| CommandRegistry.NormalizePlain | frontend/src/lib/terminal/commands.ts:311 | a lower-case word with no surrounding space is its own normalised form |
| CommandRegistry.FindEntry | frontend/src/features/cyberpunk-os/terminal/commands.ts:626-648 | the direct match and the alias loop select what the reference lookup selects |
| CommandRegistry.NormalizeTrimmed | frontend/src/features/cyberpunk-os/hooks/useTerminalEngine.ts:191 | a trimmed line normalises to its lower-case form |
| CommandRegistry.WholeLineLookup | frontend/src/features/cyberpunk-os/hooks/useTerminalEngine.ts:230-250 | a trimmed line that finds a space-free entry has no space, so its handler receives no arguments |
| CommandRegistry.AliasMatches | frontend/src/features/cyberpunk-os/terminal/commands.ts:662-668 | the collected aliases are aliases of the entry that start with the prefix |
| CommandRegistry.Candidates | frontend/src/features/cyberpunk-os/terminal/commands.ts:658-669 | every candidate starts with the prefix |
| CommandRegistry.Take | frontend/src/lib/terminal/commands.ts:347 | `slice(0, cap)` keeps the first `cap` items, or all of them |
| CommandRegistry.Suggestions | frontend/src/lib/terminal/commands.ts:328-348 | at most `cap` suggestions, each starting with the lower-cased input |
| CommandRegistry.AliasMatchesComplete | frontend/src/lib/terminal/commands.ts:338-344 | every alias that starts with the prefix is collected |
| CommandRegistry.EntryMatchesComplete | frontend/src/lib/terminal/commands.ts:333-344 | every key and alias of one entry that starts with the prefix is collected |
| CommandRegistry.CandidatesComplete | frontend/src/lib/terminal/commands.ts:332-345 | every key and alias of the registry that starts with the prefix is a candidate |
| CommandRegistry.SuggestionsComplete | frontend/src/lib/terminal/commands.ts:328-348 | below the cap, every key and alias starting with the lower-cased input is suggested |
| CommandRegistry.CollectAliases | frontend/src/lib/terminal/commands.ts:338-344 | the inner loop collects what the reference definition collects |
| CommandRegistry.CollectSuggestions | frontend/src/features/cyberpunk-os/terminal/commands.ts:651-671 | the suggestion loop gives the reference suggestions |
| CyberpunkCommands.ApplyProperties | frontend/src/features/cyberpunk-os/terminal/commands.ts:15-17 | a sync overwrites exactly the fields it supplies: empty changes nothing, full installs, twice is once, the later patch wins |
| CyberpunkCommands.CyberCommand.Index | frontend/src/features/cyberpunk-os/terminal/commands.ts:107-623 | positions are in range, and the file-system commands come after the sandbox's own |
| CyberpunkCommands.RegistryShape | frontend/src/features/cyberpunk-os/terminal/commands.ts:107-623 | 20 own entries, then the 17 file-system entries |
| CyberpunkCommands.CommandAt | frontend/src/features/cyberpunk-os/terminal/commands.ts:107-623 | each registry position holds the command with that position |
| CyberpunkCommands.FsCommandsSpreadLast | frontend/src/features/cyberpunk-os/terminal/commands.ts:622 | every file-system command keeps its entry, after the sandbox's own |
| CyberpunkCommands.Lookup | frontend/src/features/cyberpunk-os/terminal/commands.ts:626-648 | a found command answers to the normalised line |
| CyberpunkCommands.LookupComplete | frontend/src/features/cyberpunk-os/terminal/commands.ts:626-648 | a line finds a command exactly when some entry answers to it |
| CyberpunkCommands.CommandSuggestions | frontend/src/features/cyberpunk-os/terminal/commands.ts:651-671 | at most eight suggestions, each starting with the lower-cased input |
| CyberpunkCommands.FsNamesHaveNoSpace | frontend/src/features/cyberpunk-os/terminal/fileSystemCommands.ts:20-610 | file-system keys and aliases hold no space |
| CyberpunkCommands.FsCommandsGetNoArguments | frontend/src/features/cyberpunk-os/hooks/useTerminalEngine.ts:230-250 | a file-system command found for a trimmed line was typed without a space, so it receives no arguments |
| CyberpunkCommands.ElevateAnswer | frontend/src/features/cyberpunk-os/terminal/commands.ts:177-197 | `sudo elevate` animates exactly for a visitor |
| CyberpunkCommands.FirewallAnswer | frontend/src/features/cyberpunk-os/terminal/commands.ts:330-365 | `enable firewall` animates exactly for an administrator whose firewall is off |
| CyberpunkCommands.FixedAnswer | frontend/src/features/cyberpunk-os/terminal/commands.ts:117-620 | the state-independent answers are never errors |
| CyberpunkCommands.Respond | frontend/src/features/cyberpunk-os/terminal/commands.ts:117-620 | only the administrator-only commands refuse, exactly for a visitor, with the access-denied message |
| CyberpunkCommands.Next | frontend/src/features/cyberpunk-os/terminal/commands.ts:174-366 | no command demotes or switches anything off; only three change state; a refused command changes nothing; the firewall stays reserved to administrators |
| CyberpunkCommands.SecureAlways | frontend/src/features/cyberpunk-os/terminal/commands.ts:327-366 | whatever is run, the firewall is only ever on for an administrator |
| CyberpunkCommands.FirewallNeedsElevation | frontend/src/features/cyberpunk-os/terminal/commands.ts:174-198 | without `sudo elevate` a visitor stays a visitor with the firewall off |
| CyberpunkCommands.ElevateAndFirewallIdempotent | frontend/src/features/cyberpunk-os/terminal/commands.ts:178-185 | elevating or enabling twice is doing it once; the second time answers "already" |
| CyberpunkCommands.SystemState.constructor | frontend/src/features/cyberpunk-os/terminal/commands.ts:6-12 | the state starts as a visitor with the firewall and monitoring off |
| CyberpunkCommands.SystemState.Sync | frontend/src/features/cyberpunk-os/terminal/commands.ts:15-17 | the supplied fields are overwritten |
| CyberpunkCommands.SystemState.Get | frontend/src/features/cyberpunk-os/terminal/commands.ts:19 | a copy of the current state |
| CyberpunkCommands.SystemState.Elevate | frontend/src/features/cyberpunk-os/terminal/commands.ts:174-198 | answers as `ElevateAnswer` and moves as `Next` |
| CyberpunkCommands.SystemState.EnableFirewall | frontend/src/features/cyberpunk-os/terminal/commands.ts:327-366 | answers as `FirewallAnswer` and moves as `Next` |
| CyberpunkCommands.SystemState.Status | frontend/src/features/cyberpunk-os/terminal/commands.ts:220-245 | reports the state and switches monitoring on |
| CyberpunkCommands.Answer | frontend/src/features/cyberpunk-os/terminal/commands.ts:117-620 | a sandbox command answers as `Respond` and moves the state as `Next` |
| LibCommands.LibCommand.Index | frontend/src/lib/terminal/commands.ts:4-308 | positions are in range |
| LibCommands.CommandAt | frontend/src/lib/terminal/commands.ts:4-308 | each registry position holds the command with that position |
| LibCommands.ActionOf | frontend/src/lib/terminal/commands.ts:4-308 | the AI commands connect or disconnect, `clear` clears, `exit` exits, the two animations play frames, everything else prints |
| LibCommands.Lookup | frontend/src/lib/terminal/commands.ts:310-326 | a found command answers to the normalised line |
| LibCommands.LookupComplete | frontend/src/lib/terminal/commands.ts:310-326 | a line finds a command exactly when some entry answers to it |
| LibCommands.CommandSuggestions | frontend/src/lib/terminal/commands.ts:328-348 | at most five suggestions, each starting with the lower-cased input |
| LibCommands.LookupAt | frontend/src/lib/terminal/commands.ts:310-326 | lookup selects the command at the position found |
| LibCommands.OnlyLastKeyedAi | frontend/src/lib/terminal/commands.ts:303 | only the last entry is keyed `ai` |
| LibCommands.OnlyOneKeyedDisconnect | frontend/src/lib/terminal/commands.ts:296 | no entry before `disconnect ai` has that key |
| LibCommands.AliasesAreNotKeys | frontend/src/lib/terminal/commands.ts:292-299 | no entry is keyed by an AI alias, and only the two AI entries carry aliases |
| LibCommands.AiResolvesByKey | frontend/src/lib/terminal/commands.ts:303-307 | whatever normalises to `ai` selects the `ai` command |
| LibCommands.DisconnectResolvesByKey | frontend/src/lib/terminal/commands.ts:296-301 | whatever normalises to `disconnect ai` selects that command |
| LibCommands.ConnectAliasResolves | frontend/src/lib/terminal/commands.ts:289-294 | whatever normalises to `connect-ai` selects `connect ai` |
| LibCommands.DisconnectAliasesResolve | frontend/src/lib/terminal/commands.ts:296-301 | whatever normalises to `exit ai` or `disconnect-ai` selects `disconnect ai` |
| Session.FirstToken | frontend/src/hooks/useTerminal.ts:187 | the word suggestions are computed from holds no space |
| Session.Args | frontend/src/hooks/useTerminal.ts:204 | the arguments handed to a handler hold no space |
| Session.FirstTokenAndArgs | frontend/src/features/cyberpunk-os/hooks/useTerminalEngine.ts:233 | a line's first token is its first word, and its arguments are the pieces of the rest |
| Session.RepeatedSpaceGivesEmptyArgument | frontend/src/features/cyberpunk-os/hooks/useTerminalEngine.ts:250 | two spaces after the command word hand over an empty first argument |
| Session.NotFoundMessage | frontend/src/features/cyberpunk-os/hooks/useTerminalEngine.ts:233-240 | the message quotes the line, offers the suggestions when there are any, and ends with the `help` hint |
| Session.NextIndex | frontend/src/hooks/useTerminal.ts:255-261 | the index stays in range; Up always recalls a line; Down stays at "not recalling" exactly when it started there |
| Session.Recalled | frontend/src/hooks/useTerminal.ts:265-269 | the empty line at -1, otherwise a line of the history |
| Session.UpDownRoundTrip | frontend/src/hooks/useTerminal.ts:257-261 | Down undoes Up away from the oldest line; Up undoes Down away from the newest |
| Session.UpWalksBack | frontend/src/features/cyberpunk-os/hooks/useTerminalEngine.ts:306-309 | the n-th Up shows the n-th newest line, then stays on the oldest |
| Session.DownWalksForward | frontend/src/features/cyberpunk-os/hooks/useTerminalEngine.ts:310-313 | Down moves towards the newest line and stays there, never returning to "not recalling" |
| TerminalEngine.Capped | frontend/src/features/cyberpunk-os/hooks/useTerminalEngine.ts:50-52 | the capped log holds at most 200 entries |
| TerminalEngine.Appended | frontend/src/features/cyberpunk-os/hooks/useTerminalEngine.ts:39-59 | the new entry is newest; the oldest is dropped only when the log was full |
| TerminalEngine.CappedAppend | frontend/src/features/cyberpunk-os/hooks/useTerminalEngine.ts:47-52 | capping after every append is capping once at the end |
| TerminalEngine.AppendAllIsCapped | frontend/src/features/cyberpunk-os/hooks/useTerminalEngine.ts:166-175 | a batch of entries leaves the newest 200 of the old log followed by the batch |
| TerminalEngine.FrameEntries | frontend/src/features/cyberpunk-os/hooks/useTerminalEngine.ts:166-170 | one entry per frame |
| TerminalEngine.InputEntry | frontend/src/features/cyberpunk-os/hooks/useTerminalEngine.ts:195-198 | the logged input is an input line ending with the typed line |
| TerminalEngine.AiReply | frontend/src/features/cyberpunk-os/hooks/useTerminalEngine.ts:208-226 | the answer in AI mode is an error exactly when the socket is closed and the line does not disconnect |
| TerminalEngine.Dispatched | frontend/src/features/cyberpunk-os/hooks/useTerminalEngine.ts:255-290 | `clear` empties the log; a message result becomes the newest entry; the cap holds |
| TerminalEngine.Settled | frontend/src/features/cyberpunk-os/hooks/useTerminalEngine.ts:249-296 | a thrown error logs one "Command error" entry; the cap holds |
| TerminalEngine.Engine.constructor | frontend/src/features/cyberpunk-os/hooks/useTerminalEngine.ts:10-28 | empty log and history, index -1, terminal mode, initial privilege state |
| TerminalEngine.Engine.AddEntry | frontend/src/features/cyberpunk-os/hooks/useTerminalEngine.ts:39-59 | the log is appended and capped; nothing else changes |
| TerminalEngine.Engine.ClearTerminal | frontend/src/features/cyberpunk-os/hooks/useTerminalEngine.ts:62-64 | the log is emptied; nothing else changes |
| TerminalEngine.Engine.SetCurrentInput | frontend/src/features/cyberpunk-os/hooks/useTerminalEngine.ts:67-69 | the input line is replaced; nothing else changes |
| TerminalEngine.Engine.ConnectAi | frontend/src/features/cyberpunk-os/hooks/useTerminalEngine.ts:90-102 | logs "already connected" or "establishing"; the mode is unchanged |
| TerminalEngine.Engine.ConnectionOpened | frontend/src/features/cyberpunk-os/hooks/useTerminalEngine.ts:107-117 | AI mode, with the established and greeting entries |
| TerminalEngine.Engine.DisconnectAi | frontend/src/features/cyberpunk-os/hooks/useTerminalEngine.ts:152-162 | terminal mode, with the disconnected entry |
| TerminalEngine.Engine.PlayFrames | frontend/src/features/cyberpunk-os/hooks/useTerminalEngine.ts:165-176 | one capped append per frame, in order, which is the newest 200 of the log plus the frames |
| TerminalEngine.Engine.Settle | frontend/src/features/cyberpunk-os/hooks/useTerminalEngine.ts:249-296 | the log as `Settled` says; only a disconnect result leaves AI mode |
| TerminalEngine.Engine.Record | frontend/src/features/cyberpunk-os/hooks/useTerminalEngine.ts:195-205 | the line is logged with its prompt and appended to the history; the index is reset |
| TerminalEngine.Engine.AiTurn | frontend/src/features/cyberpunk-os/hooks/useTerminalEngine.ts:208-227 | one reply entry; a disconnect line leaves AI mode |
| TerminalEngine.Engine.RunSandbox | frontend/src/features/cyberpunk-os/hooks/useTerminalEngine.ts:249-290 | a sandbox command answers as `Respond`, moves the state as `Next`, the state is mirrored and the answer dispatched |
| TerminalEngine.Engine.RunFs | frontend/src/features/cyberpunk-os/hooks/useTerminalEngine.ts:249-290 | a read-only file-system command answers as `Query` and leaves the file system alone |
| TerminalEngine.Engine.CommandTurn | frontend/src/features/cyberpunk-os/hooks/useTerminalEngine.ts:229-296 | an unknown line logs one error and changes nothing else; a sandbox command is run as `Respond` and `Next` say |
| TerminalEngine.Engine.ExecuteCommand | frontend/src/features/cyberpunk-os/hooks/useTerminalEngine.ts:190-297 | a blank line changes nothing; any other is logged and recorded, then answered in AI mode or looked up and run |
| TerminalEngine.Engine.NavigateHistory | frontend/src/features/cyberpunk-os/hooks/useTerminalEngine.ts:300-324 | nothing on an empty history; otherwise the index moves as `NextIndex` and the input shows the recalled line |
| PortfolioTerminal.FrameKind | frontend/src/hooks/useTerminal.ts:122-124 | green frames are system lines, red ones errors, yellow ones AI lines, all others output |
| PortfolioTerminal.FrameEntries | frontend/src/hooks/useTerminal.ts:120-135 | one entry per frame, in order, with its colour's kind and its text |
| PortfolioTerminal.OutputEntries | frontend/src/hooks/useTerminal.ts:137-147 | one output entry per line, in order |
| PortfolioTerminal.InputEntry | frontend/src/hooks/useTerminal.ts:155-158 | the logged input is an input line |
| PortfolioTerminal.AiReply | frontend/src/hooks/useTerminal.ts:165-181 | the answer in AI mode with the socket open is a system line |
| PortfolioTerminal.Performed | frontend/src/hooks/useTerminal.ts:206-243 | `clear` empties the log; every other action only appends, one entry per line or frame for animations, otherwise one |
| PortfolioTerminal.AutoComplete | frontend/src/hooks/useTerminal.ts:272-275 | a completion exists exactly when there are suggestions, and it is one of them |
| PortfolioTerminal.DisconnectLinesResolve | frontend/src/hooks/useTerminal.ts:167 | both disconnect lines, typed outside AI mode, select the `disconnect ai` command |
| PortfolioTerminal.Terminal.constructor | frontend/src/hooks/useTerminal.ts:8-17 | empty log and history, index -1, booting, terminal mode |
| PortfolioTerminal.Terminal.AddToHistory | frontend/src/hooks/useTerminal.ts:20-25 | the log grows by exactly the entry |
| PortfolioTerminal.Terminal.ClearHistory | frontend/src/hooks/useTerminal.ts:27-29 | the log is emptied; nothing else changes |
| PortfolioTerminal.Terminal.SetCurrentInput | frontend/src/hooks/useTerminal.ts:31-33 | the input line is replaced; nothing else changes |
| PortfolioTerminal.Terminal.SetBooting | frontend/src/hooks/useTerminal.ts:35-37 | the booting flag is replaced; nothing else changes |
| PortfolioTerminal.Terminal.ConnectAi | frontend/src/hooks/useTerminal.ts:39-54 | logs "already connected" or "establishing"; AI mode starts only when the socket opens |
| PortfolioTerminal.Terminal.ConnectionOpened | frontend/src/hooks/useTerminal.ts:56-70 | AI mode, with the established, greeting and tip entries |
| PortfolioTerminal.Terminal.DisconnectAi | frontend/src/hooks/useTerminal.ts:108-118 | terminal mode, with the disconnected entry |
| PortfolioTerminal.Terminal.PlayAnimatedCommand | frontend/src/hooks/useTerminal.ts:120-135 | the log gains one entry per frame, in order |
| PortfolioTerminal.Terminal.AnimateOutput | frontend/src/hooks/useTerminal.ts:137-147 | the log gains one output entry per line, in order |
| PortfolioTerminal.Terminal.Perform | frontend/src/hooks/useTerminal.ts:206-243 | the log as `Performed` says; only a disconnect action leaves AI mode |
| PortfolioTerminal.Terminal.Record | frontend/src/hooks/useTerminal.ts:155-162 | the line is logged with its prompt and appended to the history; the index is reset |
| PortfolioTerminal.Terminal.AiTurn | frontend/src/hooks/useTerminal.ts:165-181 | one reply entry; a disconnect line leaves AI mode |
| PortfolioTerminal.Terminal.CommandTurn | frontend/src/hooks/useTerminal.ts:184-243 | an unknown line logs one error; a known one has its action carried out; a disconnect line always leaves AI mode |
| PortfolioTerminal.Terminal.ExecuteCommand | frontend/src/hooks/useTerminal.ts:149-250 | a blank line changes nothing; any other is logged and recorded, sent to the AI only when AI mode is on and the socket open, and otherwise looked up even in AI mode |
| PortfolioTerminal.Terminal.NavigateHistory | frontend/src/hooks/useTerminal.ts:252-270 | nothing on an empty history; otherwise the index moves as `NextIndex` and the input shows the recalled line |
| Prompt.DisplayPath | frontend/src/features/cyberpunk-os/terminal/TerminalInput.tsx:34 | the root shows as `~`, a leading slash as `~/`, and a relative path as it is |
| Prompt.DisplayPathRoundTrip | frontend/src/features/cyberpunk-os/terminal/TerminalInput.tsx:34 | an absolute cursor is recovered from its display |
| Prompt.OnlyFirstSlashReplaced | frontend/src/features/cyberpunk-os/terminal/TerminalInput.tsx:34 | only the first slash is replaced: `//x` shows as `~//x` |
| Prompt.PromptText | frontend/src/features/cyberpunk-os/terminal/TerminalInput.tsx:35 | `AI>` in AI mode, otherwise the displayed path followed by ` $` |
| Prompt.ColorOf | frontend/src/features/cyberpunk-os/terminal/TerminalInput.tsx:36 | green exactly in AI mode |
| DeviceDetection.ScreenSizeOf | frontend/src/hooks/useDeviceDetection.ts:70-77 | each breakpoint covers exactly its width range |
| DeviceDetection.ScreenSizeMonotone | frontend/src/hooks/useDeviceDetection.ts:70-77 | a wider window never has a narrower breakpoint |
| DeviceDetection.Detect | frontend/src/hooks/useDeviceDetection.ts:13-35 | without a window, the fixed desktop answer; otherwise flags, breakpoint and orientation from the width and height |
| DeviceDetection.OneKindOfDevice | frontend/src/hooks/useDeviceDetection.ts:29-31 | exactly one of mobile, tablet and desktop holds |
| DeviceDetection.FlagsFollowScreenSize | frontend/src/hooks/useDeviceDetection.ts:29-33 | mobile up to `md`, tablet at `lg`, desktop from `xl` |
| DeviceDetection.SquareIsPortrait | frontend/src/hooks/useDeviceDetection.ts:34 | a square window is portrait |
| DeviceDetection.DefaultIsNoWindowsAnswer | frontend/src/hooks/useDeviceDetection.ts:14-23 | the answer without a window (desktop at `lg`) is produced by no window |
| VirtualKeyboard.Press | frontend/src/components/mobile/VirtualKeyboard.tsx:36-67 | what each special key does, and that an ordinary key is typed and ends a letter-layout shift |
| VirtualKeyboard.Label | frontend/src/components/mobile/VirtualKeyboard.tsx:86-99 | the labels of the special keys |
| VirtualKeyboard.LabelIsTyped | frontend/src/components/mobile/VirtualKeyboard.tsx:59-61 | an ordinary key shows exactly what pressing it types |
| VirtualKeyboard.ShiftIsOneShot | frontend/src/components/mobile/VirtualKeyboard.tsx:59-64 | after a shifted letter, shift is off and the next key is typed as it is |
| VirtualKeyboard.Keyboard.constructor | frontend/src/components/mobile/VirtualKeyboard.tsx:33-34 | letters, shift off |
| VirtualKeyboard.Keyboard.PressKey | frontend/src/components/mobile/VirtualKeyboard.tsx:36-67 | the new layout, shift and emitted key are those of `Press` |
| VirtualKeyboard.TypeWord | frontend/src/components/mobile/VirtualKeyboard.tsx:198-201 | a suggestion button sends each character of its word, in order, and they make up the word |
| VirtualKeyboard.ConcatAppend | frontend/src/components/mobile/VirtualKeyboard.tsx:201 | concatenating one more key appends its text |
| Chatbot.Topic.Position | backend/chat/chatbot.py:12-118 | each keyword topic sits at its place in the order the branches are tried |
| Chatbot.FirstFrom | backend/chat/chatbot.py:13-111 | the first topic from a position on that the message mentions, with none mentioned before it |
| Chatbot.Classify | backend/chat/chatbot.py:10-111 | the topic is the first one mentioned; the fallback holds exactly when none is |
| Chatbot.Replies | backend/chat/chatbot.py:14-118 | every topic has a reply; greetings, thanks and the fallback pick among several |
| Chatbot.Pick | backend/chat/chatbot.py:19 | `random.choice` returns an element of the list |
| Chatbot.PickCovers | backend/chat/chatbot.py:19 | every element of the list can be chosen |
| Chatbot.Reply | backend/chat/chatbot.py:6-118 | the reply is one of the classified topic's replies |
| Chatbot.EveryReplyReachable | backend/chat/chatbot.py:6-118 | every reply of the topic is given for some choice |
| Chatbot.GreetingWins | backend/chat/chatbot.py:13 | a message containing `hi` anywhere, inside a word included, is answered as a greeting |
| Chatbot.WorkMeansProjects | backend/chat/chatbot.py:34-57 | `work` is tried as a projects keyword first, so it is never answered as experience or contact |
| Chatbot.FallbackOnlyWithoutKeywords | backend/chat/chatbot.py:111-118 | the fallback is given exactly when no keyword of any topic occurs |

## Left out

- Time and timers are not modelled:
  - frame and animation delays;
  - the one-second delay before the sandbox closes, and the toggle of system mode;
  - the boot sequence (`runBootSequence`, `bootSequence`);
  - the intrusion-detection timer of the sandbox;
  - the resize and orientation listeners of device detection.
- The socket is not modelled.
  - Whether it is open is a parameter, and `onopen` is a method the caller invokes.
  - What is sent, `onmessage`, `onclose`, `onerror` and the unmount cleanup are not part of this model.
  - The back end's socket consumer is not part of this model.
- Clock readings are not modelled. A creation takes its timestamp as a parameter `now`, and entry ids and timestamps are not kept.
- Randomness is not modelled. The random system metrics of `system status` and the status banners are reduced to their state-dependent lines. `random.choice` is a parameter `pick`.
- Multi-line text is reduced to one line, its first line or, for a boxed banner, its title line. This applies to:
  - the seeded file contents;
  - the command banners;
  - the animation frames;
  - the chat bot's multi-line replies.
- Registry descriptions and the static `help` text are not kept.
- `getKeyStyle`, colours, motion and every other visual of the keyboard and the prompt are not modelled.
- `Lower` and `Upper` map ASCII letters only. JavaScript's `toLowerCase` and `toUpperCase`, and Python's `lower`, also map other letters.
- Python's `strip` is modelled with the same white-space set as JavaScript's `trim`.
- String lengths count characters, not UTF-16 code units.
- Sizes are natural numbers. `formatFileSize` of a fractional or negative size is not modelled.
- Window widths are integers.
- VirtualFileSystem.FileSystem.CreateDirectory: the new directory is appended to its parent's children, and listings (`ls`, `find`, `tree`) visit children in that creation order. The source keeps children in an object and lists them with `Object.values` (fileSystemCommands.ts:37 and :298, virtualFileSystem.ts:900). That lists names that are array indices (`7`, `10`, and so on up to 4294967294, with no leading zero) first, in ascending numeric order, and the other names after them in creation order. After `mkdir 10` then `mkdir 9`, the source lists `9` first and the model lists `10` first. No seeded name is numeric, so the two orders differ only once such a name is created.
- VirtualFileSystem.FileSystem.CreateFile: the same listing-order gap for files whose names are array indices.
- Text.ParseIntOfIntToString: integers are unbounded. JavaScript numbers are doubles: `parseInt` rounds above 2^53, and `toString` prints in exponent form from 1e21. The round trip holds in the source only for magnitudes below 2^53.
- FsCommands.LineCountArgReads: the count is an unbounded integer. In the source it is a double, so a count above 2^53 is rounded.
- JavaScript object-key quirks are not modelled. A key such as `constructor` or `__proto__` finding an inherited property is not captured.
- That the registry keys are distinct is not proved in general; lookup prefers the first entry with a key.
- `tree`'s `-a` and `-L` options and `ls`'s `-a` are read by the code and never used; the model ignores them too.
- The class invariant `FileSystem.Valid` does not include the tree invariants (unique, valid names; closed user-created subtrees). They are proved of the trees instead: `SeedTree.SeedInvariants` for the initial tree, which the constructor and `Reset` install. The creation and deletion methods state their new tree as `WithChild` or `WithoutChild`, to which `CreateKeepsInvariants` and `DeleteKeepsInvariants` apply.
- FsCommands.Execute: states only what the read-only commands and `reset` answer. For the other commands, `Update` defers to `Cd`, `MakeEntry`, `Rm`, `Echo` and `FileSystem.Reset`, whose own contracts state their effect.
- FsCommands.Update: states only validity and `reset`'s answer; each mutating command's effect is stated by the member it calls.
- TerminalEngine.Engine.RunFs: states the answer and the unchanged file system only for read-only commands.
- TerminalEngine.Engine.CommandTurn: states the file-system case only through `RunFs`.
- TerminalEngine.Engine.ExecuteCommand: likewise does not restate the file-system case.
- TerminalEngine.Engine.ExecuteCommand: handler exceptions are modelled in `Settle`, but no modelled sandbox handler throws, so every call settles with a returned result.
- PortfolioTerminal.Terminal.ExecuteCommand: the `catch` branch of `useTerminal` is not modelled, because none of the portfolio commands' handlers throws.
- PortfolioTerminal.Terminal.ExecuteCommand: `state.isAiMode` is read from the current state, whereas the hook reads it from the render that created the callback.
- `SeedTree` models `initialFileSystem`. Its shape and names are kept; contents are abbreviated.
