/**
  The virtual file system of the security sandbox: a seeded tree, a cursor
  (current path) and a bounded path history, with path resolution, lookups,
  validated creation and deletion, reset, size formatting and the tree view.
 */
module VirtualFileSystem {
  import opened Wrappers
  import opened Text
  import opened FsTree
  import opened SeedTree

  const MaxPathHistory: nat := 50

  // -------------------------------------------------------------- paths

  /** `path.split('/').filter(Boolean)`. */
  function Segments(path: string): (segs: seq<string>)
    ensures CleanSegments(segs)
  {
    NonEmpty(Split(path, '/'))
  }

  predicate CleanSegments(segs: seq<string>)
  {
    forall k :: 0 <= k < |segs| ==> segs[k] != "" && '/' !in segs[k]
  }

  /** The push/pop loop of path resolution: `..` pops (nothing when empty),
      `.` is skipped, any other segment is pushed. */
  function ApplySegments(stack: seq<string>, segs: seq<string>): seq<string>
    decreases |segs|
  {
    if segs == [] then stack
    else if segs[0] == ".." then ApplySegments(if stack == [] then [] else stack[..|stack| - 1], segs[1..])
    else if segs[0] == "." then ApplySegments(stack, segs[1..])
    else ApplySegments(stack + [segs[0]], segs[1..])
  }

  /** `resolvePath`: an absolute path is returned verbatim, a relative one is
      applied to the cursor's segments and rendered from the root. */
  function Resolve(cursor: string, path: string): (r: string)
    ensures StartsWith(r, "/")
  {
    if StartsWith(path, "/") then path
    else "/" + Join(ApplySegments(Segments(cursor), Segments(path)), "/")
  }

  lemma {:induction false} ApplySegmentsClean(stack: seq<string>, segs: seq<string>)
    requires CleanSegments(stack) && CleanSegments(segs)
    ensures CleanSegments(ApplySegments(stack, segs))
    decreases |segs|
  {
    if segs != [] {
      var next := if segs[0] == ".." then (if stack == [] then [] else stack[..|stack| - 1])
                  else if segs[0] == "." then stack else stack + [segs[0]];
      assert CleanSegments(next);
      assert CleanSegments(segs[1..]) by {
        forall k | 0 <= k < |segs[1..]| ensures segs[1..][k] != "" && '/' !in segs[1..][k] {
          assert segs[1..][k] == segs[k + 1];
        }
      }
      ApplySegmentsClean(next, segs[1..]);
    }
  }

  /** Rendering clean segments from the root and splitting again gives them back. */
  lemma RootedRoundTrip(parts: seq<string>)
    requires CleanSegments(parts)
    ensures Segments("/" + Join(parts, "/")) == parts
  {
    var s := "/" + Join(parts, "/");
    assert s[0] == '/' && s[1..] == Join(parts, "/");
    if parts == [] {
      assert Split(s[1..], '/') == [""];
      assert Split(s, '/') == ["", ""];
    } else {
      SplitJoin(parts, '/');
      assert Split(s, '/') == [""] + parts;
      NonEmptyOfNonEmpty(parts);
      assert ([""] + parts)[1..] == parts;
    }
  }

  /** The segments of a resolved relative path are exactly the cursor's
      segments with the path's segments applied. */
  lemma ResolveSegments(cursor: string, path: string)
    requires !StartsWith(path, "/")
    ensures Segments(Resolve(cursor, path)) == ApplySegments(Segments(cursor), Segments(path))
  {
    ApplySegmentsClean(Segments(cursor), Segments(path));
    RootedRoundTrip(ApplySegments(Segments(cursor), Segments(path)));
  }

  /** Resolving an already resolved path changes nothing, whatever the cursor. */
  lemma ResolveIdempotent(cursor: string, cursor2: string, path: string)
    ensures Resolve(cursor2, Resolve(cursor, path)) == Resolve(cursor, path)
  {
  }

  /** Absolute paths are not normalised: `/<dir>/..` keeps its `..` segment
      instead of denoting the root, whatever the cursor. */
  lemma AbsoluteDotDotKept(cursor: string, dir: string)
    requires dir != "" && '/' !in dir
    ensures Resolve(cursor, "/" + dir + "/..") == "/" + dir + "/.."
    ensures Segments(Resolve(cursor, "/" + dir + "/..")) == [dir, ".."]
  {
    var parts := [dir, ".."];
    assert Join(parts, "/") == dir + "/" + ".." by {
      assert Join(parts[1..], "/") == "..";
    }
    assert "/" + Join(parts, "/") == "/" + dir + "/..";
    RootedRoundTrip(parts);
  }

  /** `'/'` denotes the root. */
  lemma RootSegments()
    ensures Segments("/") == []
  {
    assert "/"[1..] == "";
    assert Split("/", '/') == ["", ""];
  }

  /** `setCurrentPath`'s normalisation: one trailing `/` is removed unless the
      path is exactly `/`. */
  function StripTrailingSlash(path: string): string
  {
    if path == "/" then "/"
    else if |path| > 0 && path[|path| - 1] == '/' then path[..|path| - 1]
    else path
  }

  /** Stripping the trailing slash does not change which node a path denotes. */
  lemma StripKeepsSegments(path: string)
    ensures Segments(StripTrailingSlash(path)) == Segments(path)
  {
    if path != "/" && |path| > 0 && path[|path| - 1] == '/' {
      var q := path[..|path| - 1];
      assert path == q + ['/'];
      SplitTrailingSep(q, '/');
      NonEmptyAppend(Split(q, '/'), [""]);
      assert NonEmpty([""]) == [];
    }
  }

  /** The last `n` entries of `h` (`h.slice(-n)` when `h` is longer than `n`). */
  function KeepLast<T>(h: seq<T>, n: nat): (r: seq<T>)
    ensures |r| == (if |h| <= n then |h| else n)
    ensures r == h[|h| - |r|..]
    ensures |h| > 0 && n > 0 ==> |r| > 0 && r[|r| - 1] == h[|h| - 1]
  {
    if |h| > n then h[|h| - n..] else h
  }

  /** The directory `path || currentPath` names. */
  function Target(path: string, cursor: string): string
  {
    if path == "" then cursor else path
  }

  // --------------------------------------------------------- mutations

  datatype CreateOutcome = Created | TargetMissing | TargetNotDirectory | NameTaken | NameInvalid

  /** Which check of `createDirectory`/`createFile` decides, in source order. */
  function CreateCheck(root: Node, segs: seq<string>, name: string): (o: CreateOutcome)
    ensures o.Created? <==>
      Walk(root, segs).Some? && Walk(root, segs).value.Directory? &&
      Child(Walk(root, segs).value, name).None? && ValidName(name)
  {
    match Walk(root, segs)
    case None => TargetMissing
    case Some(d) =>
      if d.File? then TargetNotDirectory
      else if Child(d, name).Some? then NameTaken
      else if !ValidName(name) then NameInvalid
      else Created
  }

  function CreateMessage(o: CreateOutcome, isDirectory: bool, name: string, target: string): string
  {
    var noun := if isDirectory then "Directory" else "File";
    match o
    case TargetMissing => "Directory not found: " + target
    case TargetNotDirectory => "Not a directory: " + target
    case NameTaken => noun + " already exists: " + name
    case NameInvalid => "Invalid " + (if isDirectory then "directory" else "file") + " name: " + name
    case Created => noun + " created: " + name
  }

  /** The tree with `c` added as the last child of the directory at `segs`. */
  function WithChild(root: Node, segs: seq<string>, c: Node): Node
    requires Walk(root, segs).Some? && Walk(root, segs).value.Directory?
  {
    SetAt(root, segs, AddChild(Walk(root, segs).value, c))
  }

  function NewDirectory(name: string, now: string): Node
  {
    Directory(name, [], "drwxr-xr-x", now, Some(now), true)
  }

  function NewFile(name: string, content: string, now: string): Node
  {
    File(name, content, |content|, "-rw-r--r--", now, Some(now), true)
  }

  datatype DeleteOutcome =
    | RootRefused | DirMissing | DirNotDirectory | EntryMissing | SystemEntry
    | Removed(wasDirectory: bool)

  /** Which check of `deleteFileOrDirectory` decides, in source order. */
  function DeleteCheck(root: Node, resolved: string, name: string): (o: DeleteOutcome)
    ensures o.Removed? <==>
      !(resolved == "/" && name == "/") &&
      Walk(root, Segments(resolved)).Some? && Walk(root, Segments(resolved)).value.Directory? &&
      Child(Walk(root, Segments(resolved)).value, name).Some? &&
      Child(Walk(root, Segments(resolved)).value, name).value.isUserCreated
  {
    if resolved == "/" && name == "/" then RootRefused
    else match Walk(root, Segments(resolved))
      case None => DirMissing
      case Some(d) =>
        if d.File? then DirNotDirectory
        else match ChildIndex(d.children, name)
          case None => EntryMissing
          case Some(i) =>
            if !d.children[i].isUserCreated then SystemEntry
            else Removed(d.children[i].Directory?)
  }

  function DeleteMessage(o: DeleteOutcome, name: string, target: string): string
  {
    match o
    case RootRefused => "Cannot delete root directory"
    case DirMissing => "Directory not found: " + target
    case DirNotDirectory => "Not a directory: " + target
    case EntryMissing => "File or directory not found: " + name
    case SystemEntry => "Cannot delete system file: " + name
    case Removed(isDir) => (if isDir then "Directory" else "File") + " deleted: " + name
  }

  /** The tree without the child `name` of the directory at `segs`. */
  function WithoutChild(root: Node, segs: seq<string>, name: string): Node
    requires Walk(root, segs).Some? && Walk(root, segs).value.Directory?
    requires ChildIndex(Walk(root, segs).value.children, name).Some?
  {
    var d := Walk(root, segs).value;
    SetAt(root, segs, RemoveChild(d, ChildIndex(d.children, name).value))
  }

  /** A successful creation keeps names unique and valid, and keeps user-created
      subtrees closed, provided the new entry is itself such a subtree. */
  lemma CreateKeepsInvariants(root: Node, segs: seq<string>, c: Node)
    requires WellFormed(root) && UserClosed(root)
    requires CreateCheck(root, segs, c.name).Created?
    requires c.isUserCreated && WellFormed(c) && UserClosed(c)
    ensures WellFormed(WithChild(root, segs, c)) && UserClosed(WithChild(root, segs, c))
  {
    var d := Walk(root, segs).value;
    WalkKeepsWellFormed(root, segs);
    WalkKeepsUserClosed(root, segs);
    AddChildKeepsInvariants(d, c);
    SetAtKeepsInvariants(root, segs, AddChild(d, c));
  }

  /** The entries `mkdir` and `touch` create are well-formed user-created leaves. */
  lemma NewEntriesWellFormed(name: string, content: string, now: string)
    ensures NewDirectory(name, now).isUserCreated && WellFormed(NewDirectory(name, now)) && UserClosed(NewDirectory(name, now))
    ensures NewFile(name, content, now).isUserCreated && WellFormed(NewFile(name, content, now)) && UserClosed(NewFile(name, content, now))
  {
  }

  /** A deletion keeps the same invariants. */
  lemma DeleteKeepsInvariants(root: Node, segs: seq<string>, name: string)
    requires WellFormed(root) && UserClosed(root)
    requires Walk(root, segs).Some? && Walk(root, segs).value.Directory?
    requires ChildIndex(Walk(root, segs).value.children, name).Some?
    ensures WellFormed(WithoutChild(root, segs, name)) && UserClosed(WithoutChild(root, segs, name))
  {
    var d := Walk(root, segs).value;
    WalkKeepsWellFormed(root, segs);
    WalkKeepsUserClosed(root, segs);
    RemoveChildKeepsInvariants(d, ChildIndex(d.children, name).value);
    SetAtKeepsInvariants(root, segs, RemoveChild(d, ChildIndex(d.children, name).value));
  }

  /** Deleting a user-created entry only ever makes user-created nodes
      disappear: every path that stops resolving led to a user-created node. */
  lemma DeleteOnlyRemovesUserNodes(root: Node, segs: seq<string>, name: string, q: seq<string>)
    requires WellFormed(root) && UserClosed(root)
    requires Walk(root, segs).Some? && Walk(root, segs).value.Directory?
    requires Child(Walk(root, segs).value, name).Some?
    requires Child(Walk(root, segs).value, name).value.isUserCreated
    requires Walk(root, q).Some?
    ensures Walk(WithoutChild(root, segs, name), q).None? ==> Walk(root, q).value.isUserCreated
  {
    var d := Walk(root, segs).value;
    WalkKeepsWellFormed(root, segs);
    if IsPrefix(q, segs) {
      assert segs[..|q|] == q;
      var i := ChildIndex(d.children, name).value;
      SetAtWalkAncestor(root, segs, RemoveChild(d, i), |q|);
    } else {
      RemoveEffect(root, segs, name, q);
      if IsPrefix(segs + [name], q) {
        UnderUserChild(root, segs, name, q);
      }
    }
  }

  /** Every node under a user-created child is user-created. */
  lemma UnderUserChild(root: Node, segs: seq<string>, name: string, q: seq<string>)
    requires UserClosed(root)
    requires Walk(root, segs).Some? && Child(Walk(root, segs).value, name).Some?
    requires Child(Walk(root, segs).value, name).value.isUserCreated
    requires IsPrefix(segs + [name], q) && Walk(root, q).Some?
    ensures Walk(root, q).value.isUserCreated
  {
    var t := segs + [name];
    var rest := q[|t|..];
    assert q == t + rest;
    WalkAppend(root, t, rest);
    WalkAppend(root, segs, [name]);
    assert [name][1..] == [];
    WalkKeepsUserClosed(root, t);
    WalkKeepsUserClosed(Walk(root, t).value, rest);
  }

  /** Creating an entry never makes an existing path stop resolving. */
  lemma CreateKeepsPaths(root: Node, segs: seq<string>, c: Node, q: seq<string>)
    requires Walk(root, segs).Some? && Walk(root, segs).value.Directory?
    requires Child(Walk(root, segs).value, c.name).None?
    requires Walk(root, q).Some?
    ensures Walk(WithChild(root, segs, c), q).Some?
    ensures !IsPrefix(q, segs) ==> Walk(WithChild(root, segs, c), q) == Walk(root, q)
  {
    var d := Walk(root, segs).value;
    if IsPrefix(q, segs) {
      assert segs[..|q|] == q;
      SetAtWalkAncestor(root, segs, AddChild(d, c), |q|);
    } else {
      InsertEffect(root, segs, c, q);
      UnderMissingChild(root, segs, c.name, q);
    }
  }

  /** No path through a missing child resolves. */
  lemma UnderMissingChild(root: Node, segs: seq<string>, name: string, q: seq<string>)
    requires Walk(root, segs).Some? && Child(Walk(root, segs).value, name).None?
    ensures IsPrefix(segs + [name], q) ==> Walk(root, q).None?
  {
    var t := segs + [name];
    if IsPrefix(t, q) {
      var rest := q[|t|..];
      assert q == t + rest;
      WalkAppend(root, t, rest);
      WalkAppend(root, segs, [name]);
      assert [name][1..] == [];
    }
  }

  // ------------------------------------------------------------ state

  /** `getCurrentDirectory` on a given tree and cursor: the node at the
      cursor, or the root when the cursor does not resolve. */
  function DirectoryAt(root: Node, cursor: string): Node
  {
    Walk(root, Segments(cursor)).GetOr(root)
  }

  /** `getFileAtPath` on a given tree and cursor. */
  function FileAt(root: Node, cursor: string, path: string): Option<Node>
  {
    Walk(root, Segments(Resolve(cursor, path)))
  }

  /** The module-level `fileSystemState`: tree, cursor and path history. */
  class FileSystem {
    var root: Node
    var currentPath: string
    var pathHistory: seq<string>

    ghost predicate Valid()
      reads this
    {
      root.Directory? && root.name == "/" && !root.isUserCreated &&
      0 < |pathHistory| <= MaxPathHistory && pathHistory[|pathHistory| - 1] == currentPath
    }

    /** Tree, cursor and history together. */
    function State(): (Node, string, seq<string>)
      reads this
    {
      (root, currentPath, pathHistory)
    }

    /** The freshly loaded state: a copy of the seed, cursor at `/`. */
    constructor ()
      ensures Valid()
      ensures root == Seed() && currentPath == "/" && pathHistory == ["/"]
    {
      root := Seed();
      currentPath := "/";
      pathHistory := ["/"];
    }

    /** The path walk shared by every operation (`for (const part of pathParts)`). */
    method FindNode(segs: seq<string>) returns (r: Option<Node>)
      ensures r == Walk(root, segs)
    {
      var current := root;
      var k := 0;
      while k < |segs|
        invariant 0 <= k <= |segs|
        invariant Walk(root, segs) == Walk(current, segs[k..])
      {
        assert segs[k..][0] == segs[k] && segs[k..][1..] == segs[k + 1..];
        var next := Child(current, segs[k]);
        if next.None? {
          return None;
        }
        current := next.value;
        k := k + 1;
      }
      assert segs[k..] == [];
      return Some(current);
    }

    /** The node at the cursor, or the root when the cursor does not resolve. */
    function CurrentDirectory(): Node
      reads this
    {
      DirectoryAt(root, currentPath)
    }

    /** The node a (relative or absolute) path denotes, if any. */
    function Lookup(path: string): Option<Node>
      reads this
    {
      FileAt(root, currentPath, path)
    }

    method GetCurrentDirectory() returns (d: Node)
      ensures d == CurrentDirectory()
    {
      var r := FindNode(Segments(currentPath));
      d := if r.Some? then r.value else root;
    }

    method GetFileAtPath(path: string) returns (r: Option<Node>)
      ensures r == Lookup(path)
    {
      r := FindNode(Segments(Resolve(currentPath, path)));
    }

    /** Moves the cursor without checking that it names a directory. */
    method SetCurrentPath(path: string)
      requires Valid()
      modifies this
      ensures Valid()
      ensures root == old(root)
      ensures currentPath == StripTrailingSlash(path)
      ensures pathHistory == KeepLast(old(pathHistory) + [currentPath], MaxPathHistory)
    {
      currentPath := StripTrailingSlash(path);
      pathHistory := pathHistory + [currentPath];
      if |pathHistory| > MaxPathHistory {
        pathHistory := pathHistory[|pathHistory| - MaxPathHistory..];
      }
    }

    /** Shared body of `createDirectory` and `createFile`. */
    method CreateEntry(entry: Node, path: string) returns (outcome: CreateOutcome)
      requires Valid()
      modifies this
      ensures Valid()
      ensures currentPath == old(currentPath) && pathHistory == old(pathHistory)
      ensures var segs := Segments(Resolve(old(currentPath), Target(path, old(currentPath))));
        outcome == CreateCheck(old(root), segs, entry.name) &&
        root == if outcome.Created? then WithChild(old(root), segs, entry) else old(root)
    {
      var segs := Segments(Resolve(currentPath, Target(path, currentPath)));
      var found := FindNode(segs);
      if found.None? {
        return TargetMissing;
      }
      var dir := found.value;
      if dir.File? {
        return TargetNotDirectory;
      }
      if Child(dir, entry.name).Some? {
        return NameTaken;
      }
      if !ValidName(entry.name) {
        return NameInvalid;
      }
      root := SetAt(root, segs, AddChild(dir, entry));
      outcome := Created;
    }

    /** `createDirectory(name, path)`; `path == ""` stands for an absent path. */
    method CreateDirectory(name: string, path: string, now: string) returns (success: bool, message: string)
      requires Valid()
      modifies this
      ensures Valid()
      ensures currentPath == old(currentPath) && pathHistory == old(pathHistory)
      ensures var segs := Segments(Resolve(old(currentPath), Target(path, old(currentPath))));
        var o := CreateCheck(old(root), segs, name);
        success == o.Created? &&
        message == CreateMessage(o, true, name, Target(path, old(currentPath))) &&
        root == if success then WithChild(old(root), segs, NewDirectory(name, now)) else old(root)
    {
      var target := Target(path, currentPath);
      var o := CreateEntry(NewDirectory(name, now), path);
      success := o.Created?;
      message := CreateMessage(o, true, name, target);
    }

    /** `createFile(name, content, path)`; `path == ""` stands for an absent path. */
    method CreateFile(name: string, content: string, path: string, now: string) returns (success: bool, message: string)
      requires Valid()
      modifies this
      ensures Valid()
      ensures currentPath == old(currentPath) && pathHistory == old(pathHistory)
      ensures var segs := Segments(Resolve(old(currentPath), Target(path, old(currentPath))));
        var o := CreateCheck(old(root), segs, name);
        success == o.Created? &&
        message == CreateMessage(o, false, name, Target(path, old(currentPath))) &&
        root == if success then WithChild(old(root), segs, NewFile(name, content, now)) else old(root)
    {
      var target := Target(path, currentPath);
      var o := CreateEntry(NewFile(name, content, now), path);
      success := o.Created?;
      message := CreateMessage(o, false, name, target);
    }

    /** `deleteFileOrDirectory(name, path)`; `path == ""` stands for an absent path. */
    method DeleteEntry(name: string, path: string) returns (success: bool, message: string)
      requires Valid()
      modifies this
      ensures Valid()
      ensures currentPath == old(currentPath) && pathHistory == old(pathHistory)
      ensures var resolved := Resolve(old(currentPath), Target(path, old(currentPath)));
        var o := DeleteCheck(old(root), resolved, name);
        success == o.Removed? &&
        message == DeleteMessage(o, name, Target(path, old(currentPath))) &&
        root == if success then WithoutChild(old(root), Segments(resolved), name) else old(root)
    {
      var target := Target(path, currentPath);
      var resolved := Resolve(currentPath, target);
      var segs := Segments(resolved);
      if resolved == "/" && name == "/" {
        return false, DeleteMessage(RootRefused, name, target);
      }
      var found := FindNode(segs);
      if found.None? {
        return false, DeleteMessage(DirMissing, name, target);
      }
      var dir := found.value;
      if dir.File? {
        return false, DeleteMessage(DirNotDirectory, name, target);
      }
      var index := ChildIndex(dir.children, name);
      if index.None? {
        return false, DeleteMessage(EntryMissing, name, target);
      }
      var victim := dir.children[index.value];
      if !victim.isUserCreated {
        return false, DeleteMessage(SystemEntry, name, target);
      }
      root := SetAt(root, segs, RemoveChild(dir, index.value));
      success := true;
      message := DeleteMessage(Removed(victim.Directory?), name, target);
    }

    /** `resetFileSystem`: a fresh copy of the seed, cursor and history back at `/`. */
    method Reset()
      requires Valid()
      modifies this
      ensures Valid()
      ensures root == Seed() && currentPath == "/" && pathHistory == ["/"]
    {
      root := Seed();
      currentPath := "/";
      pathHistory := ["/"];
    }
  }

  // --------------------------------------------------------- formatting

  const Units: seq<string> := ["B", "KB", "MB", "GB"]

  function Pow1024(k: nat): (p: nat)
    ensures p >= 1
  {
    if k == 0 then 1 else 1024 * Pow1024(k - 1)
  }

  /** The unit `formatFileSize` settles on: the largest `k <= 3` with `1024^k <= size`. */
  function UnitIndex(size: nat): (k: nat)
    ensures k <= 3
  {
    if size < 1024 then 0
    else if size < 1048576 then 1
    else if size < 1073741824 then 2
    else 3
  }

  /** The unit index is characterised by its bounds, so any `k` meeting them is it. */
  lemma UnitIndexUnique(size: nat, k: nat)
    requires size >= 1 && k <= 3
    ensures (Pow1024(k) <= size && (k < 3 ==> size < Pow1024(k + 1))) <==> k == UnitIndex(size)
  {
    assert Pow1024(1) == 1024;
    assert Pow1024(2) == 1048576;
    assert Pow1024(3) == 1073741824;
  }

  /** `Math.round(size / 1024^k * 10)`: the size in tenths of the unit,
      rounded to the nearest tenth, halves up. */
  function RoundedTenths(size: nat, d: nat): nat
    requires d >= 1
  {
    (20 * size + d) / (2 * d)
  }

  /** The printed tenths are the nearest ones: `t / 10` is within half a tenth of `size / 1024^k`. */
  lemma RoundedTenthsNearest(size: nat, d: nat)
    requires d >= 1
    ensures var t := RoundedTenths(size, d);
      t * (2 * d) <= 20 * size + d < t * (2 * d) + 2 * d
  {
    DivBounds(20 * size + d, 2 * d);
  }

  lemma DivBounds(x: nat, y: nat)
    requires y > 0
    ensures (x / y) * y <= x < (x / y) * y + y
  {
  }

  /** A count of tenths as JavaScript prints `t / 10`: no trailing `.0`. */
  function TenthsText(t: nat): string
  {
    NatToString(t / 10) + (if t % 10 == 0 then "" else "." + [DigitChar(t % 10)])
  }

  /** What `formatFileSize` returns; `size == 0` also stands for an absent size. */
  function SizeText(size: nat): string
  {
    if size == 0 then "0B"
    else TenthsText(RoundedTenths(size, Pow1024(UnitIndex(size)))) + Units[UnitIndex(size)]
  }

  /** `formatFileSize`: divide by 1024 while the value is at least 1024 and
      the unit is below GB, then print to one decimal. */
  method FormatFileSize(size: nat) returns (s: string)
    ensures s == SizeText(size)
  {
    if size == 0 {
      return "0B";
    }
    var unitIndex := 0;
    var divisor := 1;
    while divisor * 1024 <= size && unitIndex < |Units| - 1
      invariant 0 <= unitIndex <= 3
      invariant divisor == Pow1024(unitIndex) <= size
      decreases 3 - unitIndex
    {
      divisor := divisor * 1024;
      unitIndex := unitIndex + 1;
    }
    UnitIndexUnique(size, unitIndex);
    var tenths := (size * 20 + divisor) / (2 * divisor);
    s := TenthsText(tenths) + Units[unitIndex];
  }

  // --------------------------------------------------------- tree view

  function Connector(isLast: bool): string
  {
    if isLast then "└── " else "├── "
  }

  /** The line `generateTreeView` emits for a non-root node. */
  function TreeLine(n: Node, prefix: string, isLast: bool): string
  {
    prefix + Connector(isLast) + (if n.Directory? then "📁 " else "📄 ") + n.name +
    (if n.isUserCreated then " *" else "")
  }

  function NextPrefix(n: Node, prefix: string, isLast: bool): string
  {
    if n.name == "/" then "" else prefix + (if isLast then "    " else "│   ")
  }

  /** `generateTreeView` as written: each child's text is split on newlines
      and its empty pieces dropped before the lines are joined. */
  function TreeView(n: Node, prefix: string, isLast: bool): string
    decreases n, 1
  {
    Join((if n.name != "/" then [TreeLine(n, prefix, isLast)] else []) +
         (if n.Directory? then ViewChildLines(n, NextPrefix(n, prefix, isLast), 0) else []), "\n")
  }

  function ViewChildLines(parent: Node, prefix: string, i: nat): seq<string>
    requires parent.Directory?
    decreases parent, 0, |parent.children| - i
  {
    if i >= |parent.children| then []
    else
      NonEmpty(Split(TreeView(parent.children[i], prefix, i == |parent.children| - 1), '\n')) +
      ViewChildLines(parent, prefix, i + 1)
  }

  /** Reference definition: one line per non-root node, in pre-order. */
  function TreeLines(n: Node, prefix: string, isLast: bool): seq<string>
    decreases n, 1
  {
    (if n.name != "/" then [TreeLine(n, prefix, isLast)] else []) +
    (if n.Directory? then ChildLines(n, NextPrefix(n, prefix, isLast), 0) else [])
  }

  function ChildLines(parent: Node, prefix: string, i: nat): seq<string>
    requires parent.Directory?
    decreases parent, 0, |parent.children| - i
  {
    if i >= |parent.children| then []
    else TreeLines(parent.children[i], prefix, i == |parent.children| - 1) + ChildLines(parent, prefix, i + 1)
  }

  /** Number of nodes in a tree, the root included. */
  function NodeCount(n: Node): nat
    decreases n, 1
  {
    1 + (if n.Directory? then ChildrenCount(n, 0) else 0)
  }

  function ChildrenCount(parent: Node, i: nat): nat
    requires parent.Directory?
    decreases parent, 0, |parent.children| - i
  {
    if i >= |parent.children| then 0 else NodeCount(parent.children[i]) + ChildrenCount(parent, i + 1)
  }

  predicate GoodLines(lines: seq<string>)
  {
    forall k :: 0 <= k < |lines| ==> lines[k] != "" && '\n' !in lines[k]
  }

  lemma ValidNameNoNewline(name: string)
    requires ValidName(name)
    ensures '\n' !in name && name != "/"
  {
    assert forall i :: 0 <= i < |name| ==> name[i] != '\n';
    assert name[0] != '/';
  }

  /** Every reference line is non-empty and free of newlines, and the tree has
      one line per node except a root named `/`. */
  lemma {:induction false} TreeLinesShape(n: Node, prefix: string, isLast: bool)
    requires WellFormed(n) && '\n' !in n.name && '\n' !in prefix
    ensures GoodLines(TreeLines(n, prefix, isLast))
    ensures |TreeLines(n, prefix, isLast)| == NodeCount(n) - (if n.name == "/" then 1 else 0)
    decreases n, 1
  {
    var next := NextPrefix(n, prefix, isLast);
    assert '\n' !in next;
    if n.Directory? {
      ChildLinesShape(n, next, 0);
    }
  }

  lemma {:induction false} ChildLinesShape(parent: Node, prefix: string, i: nat)
    requires parent.Directory? && WellFormed(parent) && '\n' !in prefix
    ensures GoodLines(ChildLines(parent, prefix, i))
    ensures |ChildLines(parent, prefix, i)| == ChildrenCount(parent, i)
    decreases parent, 0, |parent.children| - i
  {
    if i < |parent.children| {
      var c := parent.children[i];
      assert c in parent.children;
      ValidNameNoNewline(c.name);
      TreeLinesShape(c, prefix, i == |parent.children| - 1);
      ChildLinesShape(parent, prefix, i + 1);
    }
  }

  /** The rendered tree is the reference lines joined by newlines: the
      re-splitting of each child's text loses and adds nothing. */
  lemma {:induction false} TreeViewIsJoin(n: Node, prefix: string, isLast: bool)
    requires WellFormed(n) && '\n' !in n.name && '\n' !in prefix
    ensures TreeView(n, prefix, isLast) == Join(TreeLines(n, prefix, isLast), "\n")
    decreases n, 1
  {
    var next := NextPrefix(n, prefix, isLast);
    assert '\n' !in next;
    if n.Directory? {
      ViewChildLinesAgree(n, next, 0);
    }
  }

  lemma {:induction false} ViewChildLinesAgree(parent: Node, prefix: string, i: nat)
    requires parent.Directory? && WellFormed(parent) && '\n' !in prefix
    ensures ViewChildLines(parent, prefix, i) == ChildLines(parent, prefix, i)
    decreases parent, 0, |parent.children| - i
  {
    if i < |parent.children| {
      var c := parent.children[i];
      var last := i == |parent.children| - 1;
      assert c in parent.children;
      ValidNameNoNewline(c.name);
      TreeViewIsJoin(c, prefix, last);
      TreeLinesShape(c, prefix, last);
      var lines := TreeLines(c, prefix, last);
      assert |lines| >= 1;
      SplitJoin(lines, '\n');
      NonEmptyOfNonEmpty(lines);
      ViewChildLinesAgree(parent, prefix, i + 1);
    }
  }

  /** `generateTreeView()` on the whole tree: one line per non-root node. */
  lemma TreeOfRoot(root: Node)
    requires root.Directory? && root.name == "/" && WellFormed(root)
    ensures TreeView(root, "", true) == Join(TreeLines(root, "", true), "\n")
    ensures |TreeLines(root, "", true)| == NodeCount(root) - 1
  {
    TreeViewIsJoin(root, "", true);
    TreeLinesShape(root, "", true);
  }
}
