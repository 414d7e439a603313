/**
  The tree of the simulated file system: nodes, child lookup by exact name,
  walking a list of path segments from a node, and rebuilding a tree after one
  node in it has changed. Children are kept in creation order, and listings,
  `find` and `tree` visit them in that order; the original lists names that
  are array indices first, in ascending numeric order.
 */
module FsTree {
  import opened Wrappers
  import opened Text

  /** A file or a directory. `isUserCreated` is false for seeded entries;
      `created` is present only for entries made during the session. */
  datatype Node =
    | File(name: string, content: string, size: nat, permissions: string,
           modified: string, created: Option<string>, isUserCreated: bool)
    | Directory(name: string, children: seq<Node>, permissions: string,
                modified: string, created: Option<string>, isUserCreated: bool)

  /** A name accepted by the validator `^[a-zA-Z0-9._-]+$`. */
  predicate ValidName(name: string)
  {
    |name| > 0 && forall i :: 0 <= i < |name| ==> NameChar(name[i])
  }

  predicate NameChar(c: char)
  {
    ('a' <= c <= 'z') || ('A' <= c <= 'Z') || ('0' <= c <= '9') || c == '.' || c == '_' || c == '-'
  }

  // ------------------------------------------------------------- lookup

  /** Position of the child called `name` (`children[name]`), if any. */
  function ChildIndex(children: seq<Node>, name: string): (r: Option<nat>)
    ensures r.Some? ==> r.value < |children| && children[r.value].name == name
  {
    if |children| == 0 then None
    else if children[0].name == name then Some(0)
    else match ChildIndex(children[1..], name)
      case None => None
      case Some(k) => Some(k + 1)
  }

  /** The lookup finds the first child with the name, and fails only when no
      child has it. */
  lemma {:induction false} ChildIndexFirst(children: seq<Node>, name: string)
    ensures ChildIndex(children, name).Some? ==>
      forall j :: 0 <= j < ChildIndex(children, name).value ==> children[j].name != name
    ensures ChildIndex(children, name).None? ==>
      forall j :: 0 <= j < |children| ==> children[j].name != name
  {
    if |children| > 0 && children[0].name != name {
      ChildIndexFirst(children[1..], name);
      forall j | 1 <= j < |children| ensures children[j] == children[1..][j - 1] { }
    }
  }

  /** The child called `name`; a file has no children. */
  function Child(n: Node, name: string): Option<Node>
  {
    if n.File? then None
    else match ChildIndex(n.children, name)
      case None => None
      case Some(i) => Some(n.children[i])
  }

  /** The node reached from `n` by following `segs` one child at a time. */
  function Walk(n: Node, segs: seq<string>): Option<Node>
    decreases |segs|
  {
    if segs == [] then Some(n)
    else match Child(n, segs[0])
      case None => None
      case Some(c) => Walk(c, segs[1..])
  }

  predicate IsPrefix<T(==)>(a: seq<T>, b: seq<T>)
  {
    |a| <= |b| && b[..|a|] == a
  }

  lemma PrefixCons<T>(x: T, a: seq<T>, b: seq<T>)
    ensures IsPrefix([x] + a, [x] + b) <==> IsPrefix(a, b)
  {
    if IsPrefix([x] + a, [x] + b) {
      assert b[..|a|] == ([x] + b)[..|a| + 1][1..];
    }
    if IsPrefix(a, b) {
      assert ([x] + b)[..|a| + 1] == [x] + b[..|a|];
    }
  }

  lemma PrefixExtend<T>(a: seq<T>, x: T, q: seq<T>)
    ensures IsPrefix(a + [x], q) <==> IsPrefix(a, q) && |q| > |a| && q[|a|] == x
  {
    if IsPrefix(a + [x], q) {
      assert q[..|a|] == q[..|a| + 1][..|a|];
    }
    if IsPrefix(a, q) && |q| > |a| && q[|a|] == x {
      assert q[..|a| + 1] == q[..|a|] + [q[|a|]];
    }
  }

  /** Walking `a + b` is walking `a`, then `b` from where `a` ended. */
  lemma {:induction false} WalkAppend(n: Node, a: seq<string>, b: seq<string>)
    ensures Walk(n, a + b) == match Walk(n, a) case None => None case Some(m) => Walk(m, b)
    decreases |a|
  {
    if a == [] {
      assert a + b == b;
    } else {
      assert (a + b)[0] == a[0];
      assert (a + b)[1..] == a[1..] + b;
      match Child(n, a[0]) {
        case None =>
        case Some(c) => WalkAppend(c, a[1..], b);
      }
    }
  }

  /** A walk fails exactly when, at some step, the segment is not a child of
      the node reached so far (in particular when the walk passes through a file). */
  lemma {:induction false} WalkSucceedsIff(n: Node, segs: seq<string>)
    ensures Walk(n, segs).Some? <==>
      forall i :: 0 <= i < |segs| ==>
        Walk(n, segs[..i]).Some? && Child(Walk(n, segs[..i]).value, segs[i]).Some?
  {
    if segs == [] {
    } else {
      assert segs[..0] == [];
      match Child(n, segs[0]) {
        case None =>
        case Some(c) =>
          var t := segs[1..];
          WalkSucceedsIff(c, t);
          forall i | 1 <= i <= |segs|
            ensures Walk(n, segs[..i]) == Walk(c, t[..i - 1])
          {
            assert segs[..i][0] == segs[0] && segs[..i][1..] == t[..i - 1];
          }
          if Walk(n, segs).Some? {
            forall i | 0 <= i < |segs|
              ensures Walk(n, segs[..i]).Some? && Child(Walk(n, segs[..i]).value, segs[i]).Some?
            {
              if i > 0 {
                assert Walk(n, segs[..i]) == Walk(c, t[..i - 1]);
                assert segs[i] == t[i - 1];
              }
            }
          } else {
            var j :| 0 <= j < |t| && !(Walk(c, t[..j]).Some? && Child(Walk(c, t[..j]).value, t[j]).Some?);
            assert Walk(n, segs[..j + 1]) == Walk(c, t[..j]);
            assert segs[j + 1] == t[j];
          }
      }
    }
  }

  // ------------------------------------------------------------- rebuild

  /** The tree `n` with the node at `segs` replaced by `sub`. */
  function SetAt(n: Node, segs: seq<string>, sub: Node): (r: Node)
    requires Walk(n, segs).Some?
    ensures segs != [] ==> r.Directory? && n.Directory? && r.name == n.name
    ensures segs != [] ==> |r.children| == |n.children| && r.isUserCreated == n.isUserCreated
    decreases |segs|
  {
    if segs == [] then sub
    else
      var i := ChildIndex(n.children, segs[0]).value;
      n.(children := n.children[i := SetAt(n.children[i], segs[1..], sub)])
  }

  /** Replacing a child by one with the same name keeps every lookup's position. */
  lemma {:induction false} ChildIndexUpdate(cs: seq<Node>, i: nat, c: Node, x: string)
    requires i < |cs| && c.name == cs[i].name
    ensures ChildIndex(cs[i := c], x) == ChildIndex(cs, x)
  {
    if |cs| > 0 && cs[0].name != x && i > 0 {
      assert cs[i := c][1..] == cs[1..][i - 1 := c];
      ChildIndexUpdate(cs[1..], i - 1, c, x);
    } else if |cs| > 0 && cs[0].name != x {
      assert cs[i := c][1..] == cs[1..];
    }
  }

  /** One level of a replacement: the child on the path is replaced by the
      rebuilt child, every other lookup is unchanged. */
  lemma SetAtChild(n: Node, segs: seq<string>, sub: Node, x: string)
    requires segs != [] && Walk(n, segs).Some? && sub.name == Walk(n, segs).value.name
    ensures Child(n, segs[0]).Some?
    ensures Walk(Child(n, segs[0]).value, segs[1..]) == Walk(n, segs)
    ensures Child(SetAt(n, segs, sub), x) ==
      if x == segs[0] then Some(SetAt(Child(n, segs[0]).value, segs[1..], sub)) else Child(n, x)
  {
    var i := ChildIndex(n.children, segs[0]).value;
    var c := n.children[i];
    var c' := SetAt(c, segs[1..], sub);
    assert c'.name == c.name;
    ChildIndexUpdate(n.children, i, c', x);
  }

  /** Below the replaced node, the new tree holds `sub`'s subtree. */
  lemma {:induction false} SetAtWalkBelow(n: Node, segs: seq<string>, sub: Node, r: seq<string>)
    requires Walk(n, segs).Some? && sub.name == Walk(n, segs).value.name
    ensures Walk(SetAt(n, segs, sub), segs + r) == Walk(sub, r)
    decreases |segs|
  {
    if segs == [] {
      assert segs + r == r;
    } else {
      var t := segs + r;
      assert t[0] == segs[0] && t[1..] == segs[1..] + r;
      SetAtChild(n, segs, sub, segs[0]);
      var c := Child(n, segs[0]).value;
      SetAtWalkBelow(c, segs[1..], sub, r);
      assert Walk(SetAt(n, segs, sub), t) == Walk(SetAt(c, segs[1..], sub), segs[1..] + r);
    }
  }

  /** Away from the replaced node and its ancestors, nothing changes. */
  lemma {:induction false} SetAtWalkOther(n: Node, segs: seq<string>, sub: Node, q: seq<string>)
    requires Walk(n, segs).Some? && sub.name == Walk(n, segs).value.name
    requires !IsPrefix(q, segs) && !IsPrefix(segs, q)
    ensures Walk(SetAt(n, segs, sub), q) == Walk(n, q)
    decreases |segs|
  {
    assert segs != [] && q != [];
    SetAtChild(n, segs, sub, q[0]);
    if q[0] == segs[0] {
      assert q == [q[0]] + q[1..] && segs == [q[0]] + segs[1..];
      PrefixCons(q[0], q[1..], segs[1..]);
      PrefixCons(q[0], segs[1..], q[1..]);
      SetAtWalkOther(Child(n, segs[0]).value, segs[1..], sub, q[1..]);
    }
  }

  /** An ancestor of the replaced node is that ancestor with the replacement made below it. */
  lemma {:induction false} SetAtWalkAncestor(n: Node, segs: seq<string>, sub: Node, k: nat)
    requires Walk(n, segs).Some? && sub.name == Walk(n, segs).value.name
    requires k <= |segs|
    ensures Walk(n, segs[..k]).Some?
    ensures Walk(Walk(n, segs[..k]).value, segs[k..]) == Walk(n, segs)
    ensures Walk(SetAt(n, segs, sub), segs[..k]) ==
      Some(SetAt(Walk(n, segs[..k]).value, segs[k..], sub))
    decreases |segs|
  {
    WalkAppend(n, segs[..k], segs[k..]);
    assert segs[..k] + segs[k..] == segs;
    if k == 0 {
      assert segs[..0] == [] && segs[0..] == segs;
    } else {
      var p := segs[..k];
      assert p[0] == segs[0] && p[1..] == segs[1..][..k - 1];
      assert segs[1..][k - 1..] == segs[k..];
      SetAtChild(n, segs, sub, segs[0]);
      var c := Child(n, segs[0]).value;
      SetAtWalkAncestor(c, segs[1..], sub, k - 1);
      assert Walk(n, p) == Walk(c, p[1..]);
      assert Walk(SetAt(n, segs, sub), p) == Walk(SetAt(c, segs[1..], sub), p[1..]);
    }
  }

  // ------------------------------------------------------- well-formedness

  /** No two siblings share a name. */
  predicate UniqueNames(cs: seq<Node>)
  {
    forall i, j :: 0 <= i < j < |cs| ==> cs[i].name != cs[j].name
  }

  /** Every directory below `n` has uniquely and validly named children. */
  ghost predicate WellFormed(n: Node)
  {
    n.Directory? ==>
      UniqueNames(n.children) &&
      forall c :: c in n.children ==> ValidName(c.name) && WellFormed(c)
  }

  /** Every node below a user-created node is user-created too. */
  ghost predicate UserClosed(n: Node)
  {
    n.Directory? ==>
      forall c :: c in n.children ==> (n.isUserCreated ==> c.isUserCreated) && UserClosed(c)
  }

  /** No node of the tree rooted at `n` is user-created. */
  ghost predicate NoUserNodes(n: Node)
  {
    !n.isUserCreated && (n.Directory? ==> forall c :: c in n.children ==> NoUserNodes(c))
  }

  /** Every node reached inside a tree with no user-created node is seeded. */
  lemma {:induction false} WalkNoUserNodes(n: Node, segs: seq<string>)
    requires NoUserNodes(n) && Walk(n, segs).Some?
    ensures NoUserNodes(Walk(n, segs).value) && !Walk(n, segs).value.isUserCreated
    decreases |segs|
  {
    if segs != [] {
      var c := Child(n, segs[0]).value;
      assert c in n.children;
      WalkNoUserNodes(c, segs[1..]);
    }
  }

  lemma {:induction false} WalkKeepsWellFormed(n: Node, segs: seq<string>)
    requires WellFormed(n) && Walk(n, segs).Some?
    ensures WellFormed(Walk(n, segs).value)
    ensures segs != [] ==> ValidName(Walk(n, segs).value.name)
    decreases |segs|
  {
    if segs != [] {
      var c := Child(n, segs[0]).value;
      assert c in n.children;
      WalkKeepsWellFormed(c, segs[1..]);
    }
  }

  lemma {:induction false} WalkKeepsUserClosed(n: Node, segs: seq<string>)
    requires UserClosed(n) && Walk(n, segs).Some?
    ensures UserClosed(Walk(n, segs).value)
    ensures n.isUserCreated ==> Walk(n, segs).value.isUserCreated
    decreases |segs|
  {
    if segs != [] {
      var c := Child(n, segs[0]).value;
      assert c in n.children;
      WalkKeepsUserClosed(c, segs[1..]);
    }
  }

  /** Replacing one child by a well-formed, closed node of the same name and
      origin keeps the parent well-formed and closed. */
  lemma ReplaceChildKeepsInvariants(n: Node, i: nat, c: Node)
    requires n.Directory? && i < |n.children| && WellFormed(n) && UserClosed(n)
    requires c.name == n.children[i].name && c.isUserCreated == n.children[i].isUserCreated
    requires WellFormed(c) && UserClosed(c)
    ensures WellFormed(n.(children := n.children[i := c]))
    ensures UserClosed(n.(children := n.children[i := c]))
  {
    var cs := n.children[i := c];
    assert n.children[i] in n.children;
    forall x | x in cs
      ensures ValidName(x.name) && WellFormed(x) && UserClosed(x)
      ensures n.isUserCreated ==> x.isUserCreated
    {
      var j :| 0 <= j < |cs| && cs[j] == x;
      if j != i {
        assert n.children[j] in n.children;
      }
    }
    forall a, b | 0 <= a < b < |cs| ensures cs[a].name != cs[b].name {
      assert cs[a].name == n.children[a].name && cs[b].name == n.children[b].name;
    }
  }

  lemma {:induction false} SetAtKeepsInvariants(n: Node, segs: seq<string>, sub: Node)
    requires Walk(n, segs).Some?
    requires sub.name == Walk(n, segs).value.name
    requires sub.isUserCreated == Walk(n, segs).value.isUserCreated
    requires WellFormed(n) && WellFormed(sub)
    requires UserClosed(n) && UserClosed(sub)
    ensures WellFormed(SetAt(n, segs, sub)) && UserClosed(SetAt(n, segs, sub))
    ensures SetAt(n, segs, sub).isUserCreated == n.isUserCreated
    decreases |segs|
  {
    if segs != [] {
      var i := ChildIndex(n.children, segs[0]).value;
      var c := n.children[i];
      assert c in n.children;
      assert Walk(n, segs) == Walk(c, segs[1..]);
      SetAtKeepsInvariants(c, segs[1..], sub);
      ReplaceChildKeepsInvariants(n, i, SetAt(c, segs[1..], sub));
    }
  }

  // ------------------------------------------------------------ one level

  /** `dir` with `c` added as its last child. */
  function AddChild(dir: Node, c: Node): Node
    requires dir.Directory?
  {
    dir.(children := dir.children + [c])
  }

  /** `dir` without its child at position `i`. */
  function RemoveChild(dir: Node, i: nat): Node
    requires dir.Directory? && i < |dir.children|
  {
    dir.(children := dir.children[..i] + dir.children[i + 1..])
  }

  lemma {:induction false} ChildIndexAppend(cs: seq<Node>, c: Node, x: string)
    requires ChildIndex(cs, c.name).None?
    ensures ChildIndex(cs + [c], x) == if x == c.name then Some(|cs|) else ChildIndex(cs, x)
  {
    if |cs| > 0 {
      assert (cs + [c])[1..] == cs[1..] + [c];
      if cs[0].name != x {
        ChildIndexAppend(cs[1..], c, x);
      }
    }
  }

  /** After adding `c`, looking up its name finds it and every other lookup is as before. */
  lemma ChildAfterAdd(dir: Node, c: Node, x: string)
    requires dir.Directory? && Child(dir, c.name).None?
    ensures Child(AddChild(dir, c), x) == if x == c.name then Some(c) else Child(dir, x)
  {
    ChildIndexAppend(dir.children, c, x);
  }

  /** `ChildIndex` is determined by the first match. */
  lemma ChildIndexIs(cs: seq<Node>, x: string, e: nat)
    requires e < |cs| && cs[e].name == x
    requires forall p :: 0 <= p < e ==> cs[p].name != x
    ensures ChildIndex(cs, x) == Some(e)
  {
    ChildIndexFirst(cs, x);
  }

  /** Removing a child with another name shifts the lookup's position down
      when it lay after the removed child. */
  lemma ChildIndexRemoveOther(cs: seq<Node>, i: nat, x: string)
    requires i < |cs| && x != cs[i].name
    ensures ChildIndex(cs[..i] + cs[i + 1..], x) ==
      match ChildIndex(cs, x)
        case None => None
        case Some(k) => Some(if k < i then k else k - 1)
  {
    var rest := cs[..i] + cs[i + 1..];
    assert forall m {:trigger rest[m]} :: 0 <= m < |rest| ==> rest[m] == if m < i then cs[m] else cs[m + 1];
    ChildIndexShift(cs, rest, i, x);
  }

  lemma ChildIndexShift(cs: seq<Node>, rest: seq<Node>, i: nat, x: string)
    requires i < |cs| && |rest| + 1 == |cs| && x != cs[i].name
    requires forall m {:trigger rest[m]} :: 0 <= m < |rest| ==> rest[m] == if m < i then cs[m] else cs[m + 1]
    ensures ChildIndex(rest, x) ==
      match ChildIndex(cs, x)
        case None => None
        case Some(k) => Some(if k < i then k else k - 1)
  {
    ChildIndexFirst(cs, x);
    match ChildIndex(cs, x) {
      case None =>
        forall m | 0 <= m < |rest| ensures rest[m].name != x {
          assert rest[m] == if m < i then cs[m] else cs[m + 1];
        }
      case Some(k) =>
        var e := if k < i then k else k - 1;
        assert rest[e] == cs[k];
        forall p | 0 <= p < e ensures rest[p].name != x {
          assert rest[p] == if p < i then cs[p] else cs[p + 1];
        }
        ChildIndexIs(rest, x, e);
    }
  }

  /** With unique names, the removed child's name is no longer found. */
  lemma ChildIndexRemoveSelf(cs: seq<Node>, i: nat)
    requires i < |cs| && UniqueNames(cs)
    ensures ChildIndex(cs[..i] + cs[i + 1..], cs[i].name).None?
  {
    var rest := cs[..i] + cs[i + 1..];
    forall m | 0 <= m < |rest| ensures rest[m].name != cs[i].name {
      if m < i {
        assert rest[m] == cs[m];
      } else {
        assert rest[m] == cs[m + 1];
      }
    }
  }

  lemma ChildIndexRemove(cs: seq<Node>, i: nat, x: string)
    requires i < |cs| && UniqueNames(cs)
    ensures ChildIndex(cs[..i] + cs[i + 1..], x) ==
      if x == cs[i].name then None
      else match ChildIndex(cs, x)
        case None => None
        case Some(k) => Some(if k < i then k else k - 1)
  {
    if x == cs[i].name {
      ChildIndexRemoveSelf(cs, i);
    } else {
      ChildIndexRemoveOther(cs, i, x);
    }
  }

  /** After removing the child at `i`, its name is gone and every other lookup finds the same node. */
  lemma ChildAfterRemove(dir: Node, i: nat, x: string)
    requires dir.Directory? && i < |dir.children| && UniqueNames(dir.children)
    ensures Child(RemoveChild(dir, i), x) ==
      if x == dir.children[i].name then None else Child(dir, x)
  {
    ChildIndexRemove(dir.children, i, x);
  }

  /** Effect of adding a child under the directory at `segs`: the new entry's
      paths now resolve to it; every path that is neither an ancestor of the
      directory nor under the new entry resolves exactly as before. */
  lemma InsertEffect(root: Node, segs: seq<string>, c: Node, q: seq<string>)
    requires Walk(root, segs).Some? && Walk(root, segs).value.Directory?
    requires Child(Walk(root, segs).value, c.name).None?
    requires !IsPrefix(q, segs)
    ensures var dir := Walk(root, segs).value;
      Walk(SetAt(root, segs, AddChild(dir, c)), q) ==
        if IsPrefix(segs + [c.name], q) then Walk(c, q[|segs| + 1..]) else Walk(root, q)
  {
    var dir := Walk(root, segs).value;
    var dir' := AddChild(dir, c);
    if IsPrefix(segs, q) {
      var r := q[|segs|..];
      assert q == segs + r;
      assert r != [];
      SetAtWalkBelow(root, segs, dir', r);
      WalkAppend(root, segs, r);
      ChildAfterAdd(dir, c, r[0]);
      PrefixExtend(segs, c.name, q);
      assert q[|segs| + 1..] == r[1..];
    } else {
      SetAtWalkOther(root, segs, dir', q);
      PrefixExtend(segs, c.name, q);
    }
  }

  /** Effect of removing the child called `name` under the directory at
      `segs`: paths under it no longer resolve; every other path that is not
      an ancestor of the directory resolves exactly as before. */
  lemma RemoveEffect(root: Node, segs: seq<string>, name: string, q: seq<string>)
    requires Walk(root, segs).Some? && Walk(root, segs).value.Directory?
    requires UniqueNames(Walk(root, segs).value.children)
    requires ChildIndex(Walk(root, segs).value.children, name).Some?
    requires !IsPrefix(q, segs)
    ensures var dir := Walk(root, segs).value;
      var i := ChildIndex(dir.children, name).value;
      Walk(SetAt(root, segs, RemoveChild(dir, i)), q) ==
        if IsPrefix(segs + [name], q) then None else Walk(root, q)
  {
    var dir := Walk(root, segs).value;
    var i := ChildIndex(dir.children, name).value;
    var dir' := RemoveChild(dir, i);
    if IsPrefix(segs, q) {
      var r := q[|segs|..];
      assert q == segs + r;
      assert r != [];
      SetAtWalkBelow(root, segs, dir', r);
      WalkAppend(root, segs, r);
      ChildAfterRemove(dir, i, r[0]);
      PrefixExtend(segs, name, q);
    } else {
      SetAtWalkOther(root, segs, dir', q);
      PrefixExtend(segs, name, q);
    }
  }

  lemma AddChildKeepsInvariants(dir: Node, c: Node)
    requires dir.Directory? && WellFormed(dir) && UserClosed(dir)
    requires Child(dir, c.name).None? && ValidName(c.name)
    requires WellFormed(c) && UserClosed(c) && c.isUserCreated
    ensures WellFormed(AddChild(dir, c)) && UserClosed(AddChild(dir, c))
  {
    var cs := AddChild(dir, c).children;
    ChildIndexFirst(dir.children, c.name);
    forall a, b | 0 <= a < b < |cs| ensures cs[a].name != cs[b].name {
      if b == |dir.children| {
        assert cs[a] == dir.children[a];
      }
    }
  }

  /** A directory whose children are drawn from a well-formed, closed
      directory's children, with unique names, is well-formed and closed. */
  lemma FewerChildrenKeepInvariants(dir: Node, cs: seq<Node>)
    requires dir.Directory? && WellFormed(dir) && UserClosed(dir)
    requires forall x :: x in cs ==> x in dir.children
    requires UniqueNames(cs)
    ensures WellFormed(dir.(children := cs)) && UserClosed(dir.(children := cs))
  {
  }

  lemma RemoveKeepsUniqueNames(cs: seq<Node>, rest: seq<Node>, i: nat)
    requires i < |cs| && |rest| + 1 == |cs| && UniqueNames(cs)
    requires forall m {:trigger rest[m]} :: 0 <= m < |rest| ==> rest[m] == cs[if m < i then m else m + 1]
    ensures UniqueNames(rest)
    ensures forall x :: x in rest ==> x in cs
  {
    forall a, b | 0 <= a < b < |rest| ensures rest[a].name != rest[b].name {
      assert rest[a] == cs[if a < i then a else a + 1];
      assert rest[b] == cs[if b < i then b else b + 1];
    }
    forall x | x in rest ensures x in cs {
      var j :| 0 <= j < |rest| && rest[j] == x;
      assert cs[if j < i then j else j + 1] in cs;
    }
  }

  lemma RemoveChildKeepsInvariants(dir: Node, i: nat)
    requires dir.Directory? && i < |dir.children| && WellFormed(dir) && UserClosed(dir)
    ensures WellFormed(RemoveChild(dir, i)) && UserClosed(RemoveChild(dir, i))
  {
    var cs := dir.children[..i] + dir.children[i + 1..];
    assert forall m {:trigger cs[m]} :: 0 <= m < |cs| ==> cs[m] == dir.children[if m < i then m else m + 1];
    RemoveKeepsUniqueNames(dir.children, cs, i);
    FewerChildrenKeepInvariants(dir, cs);
  }
}
