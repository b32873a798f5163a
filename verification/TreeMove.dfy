/** src/lib/migrations/data-dir.ts */
module TreeMove {
  // The no-loss move of a legacy tree: copy every file to its target, or beside a file already there to its conflict
  // path, and remove the source only when all of it is copied.
  //
  // A run may stop at any step, by a crash or an error, leaving a torn copy or a half-removed source behind; the
  // next run starts over from what it finds.

  type Path = seq<string>

  datatype Node = Dir | File(content: string)

  type Nodes = map<Path, Node>

  /** `Under(root, p)`: p is the root or lies below it. */
  predicate Under(root: Path, p: Path) {
    |root| <= |p| && p[..|root|] == root
  }

  /** What lies above a node is a directory. */
  ghost predicate WellFormed(n: Nodes) {
    forall a, p :: p in n && Under(a, p) && a != p ==> a in n && n[a].Dir?
  }

  predicate IsFile(n: Nodes, p: Path) { p in n && n[p].File? }

  predicate IsDir(n: Nodes, p: Path) { p in n && n[p].Dir? }

  datatype Move = Move(source: Path, target: Path, conflict: Path) {
    function Child(name: string): Move {
      Move(source + [name], target + [name], conflict + [name])
    }
  }

  predicate Unrelated(a: Path, b: Path) { !Under(a, b) && !Under(b, a) }

  predicate Apart(m: Move) {
    Unrelated(m.source, m.target) && Unrelated(m.source, m.conflict) && Unrelated(m.target, m.conflict)
  }

  /** The path at the same place below another root. */
  function Rebase(p: Path, from: Path, to: Path): Path
    requires Under(from, p)
  {
    to + p[|from|..]
  }

  // ---------------------------------------------------------------- what one copy may do

  /** Only the conflict path of a source file whose target is taken is ever overwritten. */
  predicate MayOverwrite(n0: Nodes, m: Move, p: Path) {
    && Under(m.conflict, p)
    && IsFile(n0, Rebase(p, m.conflict, m.source))
    && Rebase(p, m.conflict, m.target) in n0
  }

  predicate Keeps(n0: Nodes, n: Nodes, m: Move, p: Path)
    requires p in n0
  {
    p in n && (n[p].Dir? <==> n0[p].Dir?) && (n[p] == n0[p] || MayOverwrite(n0, m, p))
  }

  /** A node of the kind its source counterpart has. */
  predicate Mirrors(n0: Nodes, n: Nodes, root: Path, source: Path, p: Path)
    requires p in n
  {
    Under(root, p) && Rebase(p, root, source) in n0 && (n[p].Dir? <==> n0[Rebase(p, root, source)].Dir?)
  }

  /** A new node mirrors a source node at the target or the conflict root, or is a directory on the way there. */
  predicate MayAdd(n0: Nodes, n: Nodes, m: Move, p: Path)
    requires p in n
  {
    || Mirrors(n0, n, m.target, m.source, p)
    || Mirrors(n0, n, m.conflict, m.source, p)
    || (n[p].Dir? && (Under(p, m.target) || Under(p, m.conflict)) && p != m.target && p != m.conflict)
  }

  /** What any part of a copy does, finished or not. */
  ghost predicate Copying(n0: Nodes, n: Nodes, m: Move) {
    && (forall p :: p in n0 ==> Keeps(n0, n, m, p))
    && (forall p :: p in n && p !in n0 ==> MayAdd(n0, n, m, p))
  }

  /** A source file is at its target; if that was taken, its content is at its conflict path. */
  predicate Copied(n0: Nodes, n: Nodes, m: Move, p: Path)
    requires p in n0 && Under(m.source, p)
  {
    var t, c := Rebase(p, m.source, m.target), Rebase(p, m.source, m.conflict);
    if n0[p].Dir? then IsDir(n, t)
    else if t in n0 then c in n && n[c] == n0[p]
    else t in n && n[t] == n0[p]
  }

  ghost predicate AllCopied(n0: Nodes, n: Nodes, m: Move) {
    forall p :: p in n0 && Under(m.source, p) ==> Copied(n0, n, m, p)
  }

  // ---------------------------------------------------------------- what can stand in the way

  /** No file stands where a directory on the way to the path is needed. */
  ghost predicate NoFileAbove(n: Nodes, path: Path) {
    forall a :: a in n && Under(a, path) && a != path ==> n[a].Dir?
  }

  /** Nothing stands in the way of one source node: of a directory no file at its target or above it; of a file whose
      target is taken no directory at its conflict path and no file above it, and otherwise no file above its target. */
  ghost predicate FreeAt(n: Nodes, m: Move, p: Path)
    requires p in n && Under(m.source, p)
  {
    var t, c := Rebase(p, m.source, m.target), Rebase(p, m.source, m.conflict);
    if n[p].Dir? then NoFileAbove(n, t) && !IsFile(n, t)
    else if t in n then NoFileAbove(n, c) && !IsDir(n, c)
    else NoFileAbove(n, t)
  }

  ghost predicate Unobstructed(n: Nodes, m: Move) {
    forall p :: p in n && Under(m.source, p) ==> FreeAt(n, m, p)
  }

  // ---------------------------------------------------------------- paths

  lemma UnderTogether(a: Path, b: Path, p: Path)
    requires Under(a, p) && Under(b, p)
    ensures Under(a, b) || Under(b, a)
  {
    if |a| <= |b| {
      assert b[..|a|] == p[..|b|][..|a|] == p[..|a|];
    } else {
      assert a[..|b|] == p[..|a|][..|b|] == p[..|b|];
    }
  }

  lemma UnderChain(a: Path, b: Path, p: Path)
    requires Under(a, b) && Under(b, p)
    ensures Under(a, p)
  {
    assert p[..|a|] == p[..|b|][..|a|];
  }

  /** The child a path below the root goes through. */
  lemma ChildOnTheWay(root: Path, p: Path)
    requires Under(root, p) && p != root
    ensures |p| > |root| && Under(root + [p[|root|]], p)
  {
    assert p[..|root| + 1] == root + [p[|root|]];
  }

  lemma RebaseChild(p: Path, from: Path, to: Path, name: string)
    requires Under(from + [name], p)
    ensures Under(from, p) && Rebase(p, from, to) == Rebase(p, from + [name], to + [name])
  {
    UnderChain(from, from + [name], p);
    assert p == from + [name] + p[|from| + 1..];
  }

  lemma RebaseUnder(p: Path, from: Path, to: Path)
    requires Under(from, p)
    ensures Under(to, Rebase(p, from, to)) && Rebase(Rebase(p, from, to), to, from) == p
  {
  }

  lemma RootRebase(root: Path, to: Path)
    ensures Under(root, root) && Rebase(root, root, to) == to
  {
    assert root[..|root|] == root;
  }

  /** What lies below unrelated roots is unrelated. */
  lemma Disjoint(a: Path, b: Path, p: Path)
    requires Unrelated(a, b) && Under(a, p)
    ensures !Under(b, p) && !Under(p, b)
  {
    if Under(b, p) { UnderTogether(a, b, p); }
    if Under(p, b) { UnderChain(a, p, b); }
  }

  lemma ChildrenUnrelated(a: Path, b: Path, x: string, y: string)
    requires Unrelated(a, b) || (a == b && x != y)
    ensures Unrelated(a + [x], b + [y])
  {
    if a != b {
      assert Under(a, a + [x]) && Under(b, b + [y]);
      if Under(a + [x], b + [y]) { UnderChain(a, a + [x], b + [y]); UnderTogether(a, b, b + [y]); }
      if Under(b + [y], a + [x]) { UnderChain(b, b + [y], a + [x]); UnderTogether(a, b, a + [x]); }
    } else {
      assert (a + [x])[..|a| + 1] == a + [x] && (b + [y])[..|a| + 1] == b + [y];
      assert (a + [x])[|a|] == x && (b + [y])[|a|] == y;
    }
  }

  lemma ChildApart(m: Move, name: string)
    requires Apart(m)
    ensures Apart(m.Child(name))
  {
    ChildrenUnrelated(m.source, m.target, name, name);
    ChildrenUnrelated(m.source, m.conflict, name, name);
    ChildrenUnrelated(m.target, m.conflict, name, name);
  }

  // ---------------------------------------------------------------- copying a directory entry by entry

  /** Copying leaves the source alone. */
  lemma SourceUnchanged(n0: Nodes, n: Nodes, m: Move, p: Path)
    requires Apart(m) && Copying(n0, n, m) && Under(m.source, p)
    ensures p in n <==> p in n0
    ensures p in n ==> n[p] == n0[p]
  {
    Disjoint(m.source, m.target, p);
    Disjoint(m.source, m.conflict, p);
    if p in n0 { assert Keeps(n0, n, m, p); }
    assert p in n && p !in n0 ==> MayAdd(n0, n, m, p);
  }

  /** Nothing was added below the target's entry `name` yet. */
  ghost predicate Fresh(n0: Nodes, n: Nodes, m: Move, name: string) {
    forall p :: p in n && Under(m.target + [name], p) ==> p in n0
  }

  /** One entry's copy is a part of the directory's copy. */
  lemma EntryIsPart(n0: Nodes, n1: Nodes, n2: Nodes, m: Move, name: string)
    requires Apart(m) && Copying(n0, n1, m) && Copying(n1, n2, m.Child(name))
    requires IsDir(n0, m.source) && IsDir(n1, m.target) && Fresh(n0, n1, m, name)
    ensures Copying(n0, n2, m)
  {
    forall p | p in n0 ensures Keeps(n0, n2, m, p) {
      assert Keeps(n0, n1, m, p);
      assert Keeps(n1, n2, m.Child(name), p);
      if n2[p] != n1[p] { EntryOverwrites(n0, n1, m, name, p); }
    }
    forall p | p in n2 && p !in n0 ensures MayAdd(n0, n2, m, p) {
      if p in n1 {
        assert MayAdd(n0, n1, m, p);
        assert Keeps(n1, n2, m.Child(name), p);
      } else {
        assert MayAdd(n1, n2, m.Child(name), p);
        EntryAdds(n0, n1, n2, m, name, p);
      }
    }
  }

  lemma EntryOverwrites(n0: Nodes, n1: Nodes, m: Move, name: string, p: Path)
    requires Apart(m) && Copying(n0, n1, m) && Fresh(n0, n1, m, name) && MayOverwrite(n1, m.Child(name), p)
    ensures MayOverwrite(n0, m, p)
  {
    RebaseChild(p, m.conflict, m.source, name);
    RebaseChild(p, m.conflict, m.target, name);
    RebaseUnder(p, m.conflict, m.source);
    RebaseUnder(p, m.conflict + [name], m.target + [name]);
    SourceUnchanged(n0, n1, m, Rebase(p, m.conflict, m.source));
  }

  lemma EntryAdds(n0: Nodes, n1: Nodes, n2: Nodes, m: Move, name: string, p: Path)
    requires Apart(m) && Copying(n0, n1, m) && IsDir(n0, m.source) && IsDir(n1, m.target)
    requires p in n2 && p !in n1 && MayAdd(n1, n2, m.Child(name), p)
    ensures MayAdd(n0, n2, m, p)
  {
    var child := m.Child(name);
    if Mirrors(n1, n2, child.target, child.source, p) {
      RebaseChild(p, m.target, m.source, name);
      RebaseUnder(p, m.target, m.source);
      SourceUnchanged(n0, n1, m, Rebase(p, m.target, m.source));
    } else if Mirrors(n1, n2, child.conflict, child.source, p) {
      RebaseChild(p, m.conflict, m.source, name);
      RebaseUnder(p, m.conflict, m.source);
      SourceUnchanged(n0, n1, m, Rebase(p, m.conflict, m.source));
    } else if Under(p, child.target) {
      OnTheWay(p, m.target, name);
    } else {
      OnTheWay(p, m.conflict, name);
      if p == m.conflict { RootRebase(p, m.source); }
    }
  }

  lemma OnTheWay(p: Path, root: Path, name: string)
    requires Under(p, root + [name]) && p != root + [name]
    ensures Under(p, root)
  {
    assert root[..|p|] == (root + [name])[..|p|];
  }

  /** Copying one entry does not touch the copies of the others. */
  lemma OtherEntryKept(n0: Nodes, n1: Nodes, n2: Nodes, m: Move, name: string, other: string, p: Path)
    requires Apart(m) && Copying(n1, n2, m.Child(name)) && name != other
    requires p in n0 && Under(m.source + [other], p) && Under(m.source, p) && Copied(n0, n1, m, p)
    ensures Copied(n0, n2, m, p)
  {
    var t, c := Rebase(p, m.source, m.target), Rebase(p, m.source, m.conflict);
    RebaseChild(p, m.source, m.target, other);
    RebaseChild(p, m.source, m.conflict, other);
    RebaseUnder(p, m.source + [other], m.target + [other]);
    RebaseUnder(p, m.source + [other], m.conflict + [other]);
    ChildrenUnrelated(m.target, m.conflict, other, name);
    ChildrenUnrelated(m.conflict, m.conflict, other, name);
    Disjoint(m.target + [other], m.conflict + [name], t);
    Disjoint(m.conflict + [other], m.conflict + [name], c);
    if t in n1 { assert Keeps(n1, n2, m.Child(name), t); }
    if c in n1 { assert Keeps(n1, n2, m.Child(name), c); }
  }

  /** What is copied for the entry is copied for the directory. */
  lemma EntryCopied(n0: Nodes, n1: Nodes, n2: Nodes, m: Move, name: string, p: Path)
    requires Apart(m) && Copying(n0, n1, m) && Fresh(n0, n1, m, name) && AllCopied(n1, n2, m.Child(name))
    requires p in n0 && Under(m.source + [name], p)
    ensures Under(m.source, p) && Copied(n0, n2, m, p)
  {
    RebaseChild(p, m.source, m.target, name);
    RebaseChild(p, m.source, m.conflict, name);
    SourceUnchanged(n0, n1, m, p);
    assert Copied(n1, n2, m.Child(name), p);
    var t := Rebase(p, m.source, m.target);
    RebaseUnder(p, m.source + [name], m.target + [name]);
    if t in n0 { assert Keeps(n0, n1, m, t); }
  }

  /** The other entries of the target stay fresh. */
  lemma OtherEntryFresh(n0: Nodes, n1: Nodes, n2: Nodes, m: Move, name: string, other: string)
    requires Apart(m) && Copying(n1, n2, m.Child(name)) && name != other && Fresh(n0, n1, m, other)
    ensures Fresh(n0, n2, m, other)
  {
    forall p | p in n2 && Under(m.target + [other], p) ensures p in n0 {
      if p !in n1 {
        ChildrenUnrelated(m.target, m.target, other, name);
        ChildrenUnrelated(m.target, m.conflict, other, name);
        Disjoint(m.target + [other], m.target + [name], p);
        Disjoint(m.target + [other], m.conflict + [name], p);
        assert false;
      }
    }
  }

  // ---------------------------------------------------------------- the first step of each copy

  lemma TargetMade(n0: Nodes, n: Nodes, m: Move)
    requires Apart(m) && IsDir(n0, m.source) && MadeDirs(n0, n, m.target)
    ensures Copying(n0, n, m)
    ensures forall name :: Fresh(n0, n, m, name)
  {
    RootRebase(m.target, m.source);
  }

  /** `mkdir -p` added only directories on the way to the path. */
  ghost predicate MadeDirs(n0: Nodes, n: Nodes, path: Path) {
    && (forall p :: p in n0 ==> p in n && n[p] == n0[p])
    && (forall p :: p in n && p !in n0 ==> n[p].Dir? && Under(p, path))
  }

  /** One file written over at most a file. */
  ghost predicate Wrote(n0: Nodes, n: Nodes, path: Path) {
    && (forall p :: p in n0 && p != path ==> p in n && n[p] == n0[p])
    && (forall p :: p in n && p != path ==> p in n0)
    && (path in n0 ==> path in n)
    && (path in n && (path !in n0 || n[path] != n0[path]) ==> n[path].File? && !IsDir(n0, path))
  }

  lemma FileToConflict(n0: Nodes, n1: Nodes, n2: Nodes, m: Move)
    requires Apart(m) && IsFile(n0, m.source) && m.target in n0 && m.conflict != []
    requires MadeDirs(n0, n1, Parent(m.conflict)) && Wrote(n1, n2, m.conflict)
    ensures Copying(n0, n2, m)
    ensures WellFormed(n0) && m.conflict in n2 && n2[m.conflict] == n0[m.source] ==> AllCopied(n0, n2, m)
  {
    RootRebase(m.conflict, m.source);
    RootRebase(m.conflict, m.target);
    forall p | p in n2 && p !in n0 ensures MayAdd(n0, n2, m, p) {
      if p != m.conflict { ParentOnTheWay(p, m.conflict); }
    }
    RootRebase(m.source, m.conflict);
    RootRebase(m.source, m.target);
    if WellFormed(n0) && m.conflict in n2 && n2[m.conflict] == n0[m.source] { FileIsAll(n0, n2, m); }
  }

  lemma FileToTarget(n0: Nodes, n1: Nodes, n2: Nodes, m: Move)
    requires Apart(m) && IsFile(n0, m.source) && m.target !in n0 && m.target != []
    requires MadeDirs(n0, n1, Parent(m.target)) && Wrote(n1, n2, m.target)
    ensures Copying(n0, n2, m)
    ensures WellFormed(n0) && m.target in n2 && n2[m.target] == n0[m.source] ==> AllCopied(n0, n2, m)
  {
    RootRebase(m.target, m.source);
    forall p | p in n2 && p !in n0 ensures MayAdd(n0, n2, m, p) {
      if p != m.target { ParentOnTheWay(p, m.target); }
    }
    RootRebase(m.source, m.target);
    if WellFormed(n0) && m.target in n2 && n2[m.target] == n0[m.source] { FileIsAll(n0, n2, m); }
  }

  function Parent(p: Path): Path
    requires p != []
  {
    p[..|p| - 1]
  }

  lemma BelowParent(a: Path, p: Path)
    requires p != [] && Under(a, p) && a != p
    ensures Under(a, Parent(p))
  {
    assert a != p ==> |a| < |p|;
    assert Parent(p)[..|a|] == p[..|a|];
  }

  lemma AboveParent(n: Nodes, p: Path)
    requires p != []
    ensures NoFileAbove(n, p) ==> NoFileAbove(n, Parent(p)) && !IsFile(n, Parent(p))
  {
    assert Under(Parent(p), p);
    forall a | Under(a, Parent(p)) ensures Under(a, p) && a != p { ParentOnTheWay(a, p); }
  }

  lemma NotRoots(m: Move)
    requires Apart(m)
    ensures m.source != [] && m.target != [] && m.conflict != []
  {
    assert m.source == [] ==> Under(m.source, m.target);
    assert m.target == [] ==> Under(m.target, m.source);
    assert m.conflict == [] ==> Under(m.conflict, m.source);
  }

  lemma ParentOnTheWay(p: Path, path: Path)
    requires path != [] && Under(p, Parent(path))
    ensures Under(p, path) && p != path
  {
    assert path[..|p|] == Parent(path)[..|p|];
  }

  /** Nothing lies below a file, so its copy is the whole copy. */
  lemma FileIsAll(n0: Nodes, n: Nodes, m: Move)
    requires WellFormed(n0) && IsFile(n0, m.source) && Copied(n0, n, m, m.source)
    ensures AllCopied(n0, n, m)
  {
    forall p | p in n0 && Under(m.source, p) ensures Copied(n0, n, m, p) {
      assert p == m.source;
    }
  }

  // ---------------------------------------------------------------- a copy that nothing interrupts

  /** A complete copy shows that nothing stood in its way. */
  lemma CopiedWasFree(n0: Nodes, n: Nodes, m: Move)
    requires Copying(n0, n, m) && AllCopied(n0, n, m) && WellFormed(n)
    ensures Unobstructed(n0, m)
  {
    forall p | p in n0 && Under(m.source, p) ensures FreeAt(n0, m, p) {
      var t, c := Rebase(p, m.source, m.target), Rebase(p, m.source, m.conflict);
      assert Copied(n0, n, m, p);
      if t in n { ReachedOverDirs(n0, n, m, t); }
      if c in n { ReachedOverDirs(n0, n, m, c); }
    }
  }

  lemma ReachedOverDirs(n0: Nodes, n: Nodes, m: Move, path: Path)
    requires Copying(n0, n, m) && WellFormed(n) && path in n
    ensures NoFileAbove(n0, path)
    ensures path in n0 ==> (n0[path].Dir? <==> n[path].Dir?)
  {
    forall a | a in n0 && Under(a, path) ensures Keeps(n0, n, m, a) {}
  }

  lemma ChildUnobstructed(n: Nodes, m: Move, name: string)
    requires Unobstructed(n, m)
    ensures Unobstructed(n, m.Child(name))
  {
    forall p | p in n && Under(m.source + [name], p) ensures FreeAt(n, m.Child(name), p) {
      RebaseChild(p, m.source, m.target, name);
      RebaseChild(p, m.source, m.conflict, name);
    }
  }

  /** Between the two states the kinds stay, and what is new is a directory above the path, not the path itself. */
  ghost predicate SameOnTheWay(n1: Nodes, n2: Nodes, path: Path) {
    && (path in n2 <==> path in n1)
    && (forall a :: a in n1 && Under(a, path) ==> a in n2 && (n2[a].Dir? <==> n1[a].Dir?))
    && (forall a :: a in n2 && a !in n1 && Under(a, path) ==> n2[a].Dir?)
  }

  lemma StaysFree(n1: Nodes, n2: Nodes, m: Move, p: Path)
    requires p in n1 && Under(m.source, p) && FreeAt(n1, m, p) && p in n2 && (n2[p].Dir? <==> n1[p].Dir?)
    requires SameOnTheWay(n1, n2, Rebase(p, m.source, m.conflict))
    requires var t := Rebase(p, m.source, m.target);
      if n1[p].Dir? then forall a :: a in n2 && Under(a, t) ==> if a in n1 then n2[a].Dir? <==> n1[a].Dir? else n2[a].Dir?
      else SameOnTheWay(n1, n2, t)
    ensures FreeAt(n2, m, p)
  {
    var t, c := Rebase(p, m.source, m.target), Rebase(p, m.source, m.conflict);
    RootRebase(t, t);
    RootRebase(c, c);
  }

  /** Making the target's own directory obstructs nothing. */
  lemma DirsStayUnobstructed(n0: Nodes, n1: Nodes, m: Move)
    requires Apart(m) && IsDir(n0, m.source) && MadeDirs(n0, n1, m.target) && Unobstructed(n0, m)
    ensures Unobstructed(n1, m)
  {
    forall p | p in n1 && Under(m.source, p) ensures FreeAt(n1, m, p) {
      var t, c := Rebase(p, m.source, m.target), Rebase(p, m.source, m.conflict);
      Disjoint(m.source, m.target, p);
      RebaseUnder(p, m.source, m.target);
      RebaseUnder(p, m.source, m.conflict);
      Disjoint(m.conflict, m.target, c);
      assert p in n0 && n1[p] == n0[p];
      assert |p| == |m.source| ==> p == p[..|m.source|] == m.source;
      assert n0[p].File? ==> |t| > |m.target|;
      StaysFree(n0, n1, m, p);
    }
  }

  /** Copying one entry puts nothing in the way to another. */
  lemma OtherEntryWay(n1: Nodes, n2: Nodes, m: Move, name: string, root: Path, other: string, path: Path)
    requires Apart(m) && Copying(n1, n2, m.Child(name)) && name != other && (root == m.target || root == m.conflict)
    requires Under(root + [other], path)
    ensures SameOnTheWay(n1, n2, path)
  {
    ChildrenUnrelated(root, m.target, other, name);
    ChildrenUnrelated(root, m.conflict, other, name);
    Disjoint(root + [other], m.target + [name], path);
    Disjoint(root + [other], m.conflict + [name], path);
    forall a | a in n1 ensures Keeps(n1, n2, m.Child(name), a) {}
    forall a | a in n2 && a !in n1 && Under(a, path) ensures n2[a].Dir? && a != path {
      assert MayAdd(n1, n2, m.Child(name), a);
      if Under(m.target + [name], a) { UnderChain(m.target + [name], a, path); }
      if Under(m.conflict + [name], a) { UnderChain(m.conflict + [name], a, path); }
    }
    RootRebase(path, path);
  }

  lemma OtherEntryUnobstructed(n1: Nodes, n2: Nodes, m: Move, name: string, other: string)
    requires Apart(m) && Copying(n1, n2, m.Child(name)) && name != other && Unobstructed(n1, m.Child(other))
    ensures Unobstructed(n2, m.Child(other))
  {
    var child := m.Child(other);
    forall p | p in n2 && Under(child.source, p) ensures FreeAt(n2, child, p) {
      SourceNotAdded(n1, n2, m, name, other, p);
      RebaseUnder(p, child.source, child.target);
      RebaseUnder(p, child.source, child.conflict);
      OtherEntryWay(n1, n2, m, name, m.target, other, Rebase(p, child.source, child.target));
      OtherEntryWay(n1, n2, m, name, m.conflict, other, Rebase(p, child.source, child.conflict));
      StaysFree(n1, n2, child, p);
    }
  }

  lemma AllChildrenUnobstructed(n0: Nodes, n1: Nodes, m: Move)
    requires Apart(m) && IsDir(n0, m.source) && MadeDirs(n0, n1, m.target) && Unobstructed(n0, m)
    ensures forall name :: Unobstructed(n1, m.Child(name))
  {
    DirsStayUnobstructed(n0, n1, m);
    forall name ensures Unobstructed(n1, m.Child(name)) { ChildUnobstructed(n1, m, name); }
  }

  lemma OthersUnobstructed(n1: Nodes, n2: Nodes, m: Move, name: string, left: set<string>)
    requires Apart(m) && Copying(n1, n2, m.Child(name)) && forall other :: other in left ==> Unobstructed(n1, m.Child(other))
    ensures forall other :: other in left - {name} ==> Unobstructed(n2, m.Child(other))
  {
    forall other | other in left - {name} ensures Unobstructed(n2, m.Child(other)) {
      OtherEntryUnobstructed(n1, n2, m, name, other);
    }
  }

  lemma SourceNotAdded(n1: Nodes, n2: Nodes, m: Move, name: string, other: string, p: Path)
    requires Apart(m) && Copying(n1, n2, m.Child(name)) && p in n2 && Under(m.source + [other], p)
    ensures p in n1 && (n2[p].Dir? <==> n1[p].Dir?)
  {
    UnderChain(m.source, m.source + [other], p);
    Disjoint(m.source, m.target, p);
    Disjoint(m.source, m.conflict, p);
    if p !in n1 {
      assert MayAdd(n1, n2, m.Child(name), p);
      if Under(m.target + [name], p) { UnderChain(m.target, m.target + [name], p); }
      if Under(m.conflict + [name], p) { UnderChain(m.conflict, m.conflict + [name], p); }
      if Under(p, m.target + [name]) && p != m.target + [name] { OnTheWay(p, m.target, name); }
      if Under(p, m.conflict + [name]) && p != m.conflict + [name] { OnTheWay(p, m.conflict, name); }
      assert false;
    }
    assert Keeps(n1, n2, m.Child(name), p);
  }

  // ---------------------------------------------------------------- the file system and the move

  /** The nodes of a subtree. */
  ghost function Subtree(n: Nodes, root: Path): set<Path> {
    set p | p in n && Under(root, p)
  }

  /** The names `readdir` yields. */
  function EntryNames(n: Nodes, root: Path): set<string> {
    set p | p in n && Under(root, p) && |p| == |root| + 1 :: p[|root|]
  }

  lemma EntryOnTheWay(n: Nodes, root: Path, p: Path)
    requires WellFormed(n) && p in n && Under(root, p) && p != root
    ensures p[|root|] in EntryNames(n, root) && Under(root + [p[|root|]], p)
  {
    ChildOnTheWay(root, p);
    var child := root + [p[|root|]];
    assert Under(root, child) && child[|root|] == p[|root|];
    assert child in n;
  }

  /** An entry's subtree is smaller. */
  lemma EntryIsSmaller(n0: Nodes, n: Nodes, root: Path, name: string)
    requires root in n0
    requires forall p :: Under(root, p) && p in n ==> p in n0
    ensures Subtree(n, root + [name]) < Subtree(n0, root)
  {
    forall p | p in Subtree(n, root + [name]) ensures p in Subtree(n0, root) {
      UnderChain(root, root + [name], p);
    }
    assert root in Subtree(n0, root) && root !in Subtree(n, root + [name]);
  }

  /** The loop over the entries: those not copied yet are fresh, the rest is copied. */
  ghost predicate EntriesDone(n0: Nodes, n: Nodes, m: Move, left: set<string>) {
    && (forall name :: name in left ==> Fresh(n0, n, m, name))
    && (forall p :: p in n0 && Under(m.source, p) && p != m.source && p[|m.source|] !in left ==> Copied(n0, n, m, p))
  }

  ghost predicate Entered(n0: Nodes, n: Nodes, m: Move, left: set<string>) {
    && Apart(m) && IsDir(n0, m.source) && Copying(n0, n, m) && IsDir(n, m.target)
    && EntriesDone(n0, n, m, left)
    && forall name :: name in left ==> m.source + [name] in n0
  }

  lemma EntryPart(n0: Nodes, n1: Nodes, n2: Nodes, m: Move, name: string, left: set<string>)
    requires Entered(n0, n1, m, left) && name in left && Copying(n1, n2, m.Child(name))
    ensures Copying(n0, n2, m)
  {
    EntryIsPart(n0, n1, n2, m, name);
  }

  lemma EntryDone(n0: Nodes, n1: Nodes, n2: Nodes, m: Move, name: string, left: set<string>)
    requires Entered(n0, n1, m, left) && name in left
    requires Copying(n0, n2, m) && Copying(n1, n2, m.Child(name)) && AllCopied(n1, n2, m.Child(name))
    ensures Entered(n0, n2, m, left - {name})
  {
    assert Keeps(n1, n2, m.Child(name), m.target);
    EntryProgress(n0, n1, n2, m, name, left);
  }

  lemma EntryProgress(n0: Nodes, n1: Nodes, n2: Nodes, m: Move, name: string, left: set<string>)
    requires Apart(m) && Copying(n0, n1, m) && Copying(n1, n2, m.Child(name)) && AllCopied(n1, n2, m.Child(name))
    requires name in left && EntriesDone(n0, n1, m, left)
    ensures EntriesDone(n0, n2, m, left - {name})
  {
    forall other | other in left - {name} ensures Fresh(n0, n2, m, other) {
      OtherEntryFresh(n0, n1, n2, m, name, other);
    }
    forall p | p in n0 && Under(m.source, p) && p != m.source && p[|m.source|] !in left - {name}
      ensures Copied(n0, n2, m, p)
    {
      ChildOnTheWay(m.source, p);
      if p[|m.source|] == name {
        EntryCopied(n0, n1, n2, m, name, p);
      } else {
        OtherEntryKept(n0, n1, n2, m, name, p[|m.source|], p);
      }
    }
  }

  lemma EntriesFound(n0: Nodes, n: Nodes, m: Move, entries: set<string>)
    requires WellFormed(n) && Apart(m) && Copying(n0, n, m) && IsDir(n0, m.source) && IsDir(n, m.target)
    requires entries == EntryNames(n, m.source) && forall name :: Fresh(n0, n, m, name)
    ensures Entered(n0, n, m, entries)
  {
    forall p | p in n0 && Under(m.source, p) && p != m.source ensures p[|m.source|] in entries {
      SourceUnchanged(n0, n, m, p);
      EntryOnTheWay(n, m.source, p);
    }
    forall name | name in entries ensures m.source + [name] in n0 {
      var p :| p in n && Under(m.source, p) && |p| == |m.source| + 1 && p[|m.source|] == name;
      ChildOnTheWay(m.source, p);
      assert p == m.source + [name];
      SourceUnchanged(n0, n, m, p);
    }
  }

  lemma EntryReady(n0: Nodes, n: Nodes, m: Move, name: string, left: set<string>)
    requires Entered(n0, n, m, left) && name in left
    ensures Apart(m.Child(name)) && m.source + [name] in n
    ensures Subtree(n, m.source + [name]) < Subtree(n0, m.source)
  {
    ChildApart(m, name);
    assert Under(m.source, m.source + [name]);
    SourceUnchanged(n0, n, m, m.source + [name]);
    forall p | Under(m.source, p) && p in n ensures p in n0 { SourceUnchanged(n0, n, m, p); }
    EntryIsSmaller(n0, n, m.source, name);
  }

  lemma AllEntriesDone(n0: Nodes, n: Nodes, m: Move)
    requires Entered(n0, n, m, {})
    ensures AllCopied(n0, n, m)
  {
    RootRebase(m.source, m.target);
  }

  /** Nodes only disappear, and only below the root. */
  ghost predicate Removing(n0: Nodes, n: Nodes, root: Path) {
    && (forall p :: p in n ==> p in n0 && n[p] == n0[p])
    && (forall p :: p in n0 && !Under(root, p) ==> p in n)
  }

  ghost predicate Gone(n: Nodes, root: Path) {
    forall p :: Under(root, p) ==> p !in n
  }

  /** Only entries still to be removed have nodes. */
  ghost predicate Left(n: Nodes, root: Path, entries: set<string>) {
    forall p :: p in n && Under(root, p) && p != root ==> p[|root|] in entries
  }

  lemma EntriesToRemove(n: Nodes, root: Path)
    requires WellFormed(n)
    ensures Left(n, root, EntryNames(n, root))
  {
    forall p | p in n && Under(root, p) && p != root ensures p[|root|] in EntryNames(n, root) {
      EntryOnTheWay(n, root, p);
    }
  }

  lemma EntryRemoved(n0: Nodes, n1: Nodes, n2: Nodes, root: Path, name: string)
    requires Removing(n0, n1, root) && Removing(n1, n2, root + [name])
    ensures Removing(n0, n2, root)
  {
    forall p | p in n0 && !Under(root, p) ensures p in n2 {
      if Under(root + [name], p) {
        UnderChain(root, root + [name], p);
        assert false;
      }
    }
  }

  lemma EntryGone(n1: Nodes, n2: Nodes, root: Path, name: string, entries: set<string>)
    requires Left(n1, root, entries) && Removing(n1, n2, root + [name]) && Gone(n2, root + [name])
    ensures Left(n2, root, entries - {name})
  {
    forall p | p in n2 && Under(root, p) && p != root ensures p[|root|] in entries - {name} {
      ChildOnTheWay(root, p);
    }
  }

  /** The emptied root can go. */
  lemma RemoveLast(n: Nodes, root: Path)
    requires WellFormed(n) && Left(n, root, {})
    ensures WellFormed(n - {root}) && Gone(n - {root}, root)
  {
  }

  /** Where the root is missing, nothing lies below it. */
  lemma NothingBelow(n: Nodes, root: Path)
    requires WellFormed(n) && root !in n
    ensures Gone(n, root)
  {
  }

  class FileSystem {
    var nodes: Nodes

    /** `mkdir` with `recursive`: fails at a file in the way, and may stop half-way. Here and below, nothing from
        outside, neither a crash nor a failing disk, stops a calm call. */
    method MakeDirs(path: Path, calm: bool) returns (ok: bool)
      requires WellFormed(nodes)
      modifies this
      ensures WellFormed(nodes) && MadeDirs(old(nodes), nodes, path)
      ensures ok ==> forall a :: Under(a, path) ==> IsDir(nodes, a)
      ensures calm && NoFileAbove(old(nodes), path) && !IsFile(old(nodes), path) ==> ok
    {
      ok := false;
      var k := 0;
      while k <= |path|
        invariant k <= |path| + 1
        invariant WellFormed(nodes) && MadeDirs(old(nodes), nodes, path)
        invariant forall a :: Under(a, path) && |a| < k ==> IsDir(nodes, a)
      {
        var stopped: bool := *;
        if stopped && !calm { return; }
        var dir := path[..k];
        if dir in nodes {
          if nodes[dir].File? { return; }
        } else {
          nodes := nodes[dir := Dir];
        }
        k := k + 1;
      }
      ok := true;
    }

    /** `cp` of one file: fails on a directory, and a crash may leave the copy torn. */
    method CopyFile(from: Path, to: Path, calm: bool) returns (ok: bool)
      requires WellFormed(nodes) && IsFile(nodes, from)
      requires forall a :: Under(a, to) && a != to ==> IsDir(nodes, a)
      modifies this
      ensures WellFormed(nodes) && Wrote(old(nodes), nodes, to)
      ensures ok ==> to in nodes && nodes[to] == old(nodes)[from]
      ensures calm && !IsDir(old(nodes), to) ==> ok
    {
      ok := false;
      if to in nodes && nodes[to].Dir? { return; }
      var stopped: bool, cut: bool := *, *;
      if stopped && !calm { return; }
      if cut && !calm {
        var torn: string := *;
        nodes := nodes[to := File(torn)];
        return;
      }
      nodes := nodes[to := nodes[from]];
      ok := true;
    }
  
    method CopyTreeWithoutOverwrite(m: Move, calm: bool) returns (ok: bool)
      requires WellFormed(nodes) && Apart(m) && m.source in nodes
      modifies this
      ensures WellFormed(nodes) && Copying(old(nodes), nodes, m)
      ensures ok ==> AllCopied(old(nodes), nodes, m)
      ensures calm && Unobstructed(old(nodes), m) ==> ok
      decreases Subtree(nodes, m.source)
    {
      if nodes[m.source].Dir? {
        ok := CopyDirectory(m, calm);
      } else {
        ok := CopyOneFile(m, calm);
      }
    }

    method CopyDirectory(m: Move, calm: bool) returns (ok: bool)
      requires WellFormed(nodes) && Apart(m) && IsDir(nodes, m.source)
      modifies this
      ensures WellFormed(nodes) && Copying(old(nodes), nodes, m)
      ensures ok ==> AllCopied(old(nodes), nodes, m)
      ensures calm && Unobstructed(old(nodes), m) ==> ok
      decreases Subtree(nodes, m.source), 0
    {
      ghost var n0 := nodes;
      ghost var free := calm && Unobstructed(n0, m);
      RootRebase(m.source, m.target);
      ok := MakeDirs(m.target, calm);
      TargetMade(n0, nodes, m);
      if !ok { return; }
      RootRebase(m.target, m.target);
      var entries := EntryNames(nodes, m.source);
      EntriesFound(n0, nodes, m, entries);
      if free { AllChildrenUnobstructed(n0, nodes, m); }
      while entries != {}
        invariant WellFormed(nodes) && Entered(n0, nodes, m, entries)
        invariant free ==> forall name :: name in entries ==> Unobstructed(nodes, m.Child(name))
        decreases entries
      {
        var name :| name in entries;
        ghost var n1 := nodes;
        EntryReady(n0, nodes, m, name, entries);
        ok := CopyTreeWithoutOverwrite(m.Child(name), calm);
        EntryPart(n0, n1, nodes, m, name, entries);
        if !ok { return; }
        if free { OthersUnobstructed(n1, nodes, m, name, entries); }
        EntryDone(n0, n1, nodes, m, name, entries);
        entries := entries - {name};
      }
      AllEntriesDone(n0, nodes, m);
      ok := true;
    }

    method CopyOneFile(m: Move, calm: bool) returns (ok: bool)
      requires WellFormed(nodes) && Apart(m) && IsFile(nodes, m.source)
      modifies this
      ensures WellFormed(nodes) && Copying(old(nodes), nodes, m)
      ensures ok ==> AllCopied(old(nodes), nodes, m)
      ensures calm && Unobstructed(old(nodes), m) ==> ok
    {
      ghost var n0 := nodes;
      NotRoots(m);
      RootRebase(m.source, m.target);
      RootRebase(m.source, m.conflict);
      ghost var n1;
      if m.target in nodes {
        ok, n1 := PlaceFile(m.source, m.conflict, calm);
        FileToConflict(n0, n1, nodes, m);
      } else {
        ok, n1 := PlaceFile(m.source, m.target, calm);
        FileToTarget(n0, n1, nodes, m);
      }
    }

    /** `mkdir` of the parent, then `cp`. */
    method PlaceFile(from: Path, to: Path, calm: bool) returns (ok: bool, ghost made: Nodes)
      requires WellFormed(nodes) && IsFile(nodes, from) && to != []
      modifies this
      ensures WellFormed(nodes) && MadeDirs(old(nodes), made, Parent(to)) && Wrote(made, nodes, to)
      ensures ok ==> to in nodes && nodes[to] == old(nodes)[from]
      ensures calm && NoFileAbove(old(nodes), to) && !IsDir(old(nodes), to) ==> ok
    {
      AboveParent(nodes, to);
      ok := MakeDirs(Parent(to), calm);
      made := nodes;
      if ok {
        forall a | Under(a, to) && a != to ensures Under(a, Parent(to)) { BelowParent(a, to); }
        ok := CopyFile(from, to, calm);
      }
    }
  
    /** `rm` with `recursive` and `force`: contents before their directory, and may stop half-way. */
    method RemoveTree(path: Path, calm: bool) returns (ok: bool)
      requires WellFormed(nodes)
      modifies this
      ensures WellFormed(nodes) && Removing(old(nodes), nodes, path)
      ensures ok ==> Gone(nodes, path)
      ensures calm ==> ok
      decreases Subtree(nodes, path)
    {
      ghost var n0 := nodes;
      ok := false;
      var stopped: bool := *;
      if stopped && !calm { return; }
      if path in nodes {
        var entries := EntryNames(nodes, path);
        EntriesToRemove(n0, path);
        while entries != {}
          invariant WellFormed(nodes) && Removing(n0, nodes, path) && Left(nodes, path, entries)
          decreases entries
        {
          var name :| name in entries;
          ghost var n1 := nodes;
          EntryIsSmaller(n0, nodes, path, name);
          ok := RemoveTree(path + [name], calm);
          EntryRemoved(n0, n1, nodes, path, name);
          if !ok { return; }
          EntryGone(n1, nodes, path, name, entries);
          entries := entries - {name};
        }
        RemoveLast(nodes, path);
        nodes := nodes - {path};
      } else {
        NothingBelow(nodes, path);
      }
      ok := true;
    }

    /** One run of the migration, which may stop anywhere. One that nothing stops from outside completes exactly if no
        file or directory stands in its way. */
    method MoveLegacyTree(m: Move, calm: bool) returns (ok: bool)
      requires WellFormed(nodes) && Apart(m)
      modifies this
      ensures Ran(old(nodes), nodes, m)
      ensures ok ==> Gone(nodes, m.source)
      ensures ok ==> Unobstructed(old(nodes), m)
      ensures calm && Unobstructed(old(nodes), m) ==> ok
    {
      ghost var n0 := nodes;
      if m.source !in nodes {
        NothingBelow(nodes, m.source);
        return true;
      }
      ok := CopyTreeWithoutOverwrite(m, calm);
      ghost var n1 := nodes;
      if ok {
        CopiedWasFree(n0, n1, m);
        ok := RemoveTree(m.source, calm);
        CopiedThenRemoved(n0, n1, nodes, m);
      } else {
        CopyOnly(n0, n1, m);
      }
    }
  }

  // ---------------------------------------------------------------- any number of runs

  /** What one run, finished or not, leaves: a source node that is gone was copied. */
  ghost predicate Ran(n0: Nodes, n: Nodes, m: Move) {
    && WellFormed(n)
    && (forall p :: p in n && Under(m.source, p) ==> p in n0 && n[p] == n0[p])
    && (forall p :: p in n0 && !Under(m.source, p) ==> Keeps(n0, n, m, p))
    && (forall p :: p in n && p !in n0 ==> MayAdd(n0, n, m, p))
    && (forall p :: p in n0 && Under(m.source, p) && p !in n ==> Copied(n0, n, m, p))
  }

  lemma CopyOnly(n0: Nodes, n: Nodes, m: Move)
    requires Apart(m) && WellFormed(n) && Copying(n0, n, m)
    ensures Ran(n0, n, m)
  {
    forall p | Under(m.source, p) ensures (p in n <==> p in n0) && (p in n ==> n[p] == n0[p]) {
      SourceUnchanged(n0, n, m, p);
    }
  }

  lemma CopiedThenRemoved(n0: Nodes, n1: Nodes, n2: Nodes, m: Move)
    requires Apart(m) && Copying(n0, n1, m) && AllCopied(n0, n1, m) && WellFormed(n2) && Removing(n1, n2, m.source)
    ensures Ran(n0, n2, m)
  {
    forall p | p in n2 && Under(m.source, p) ensures p in n0 && n2[p] == n0[p] { SourceUnchanged(n0, n1, m, p); }
    forall p | p in n0 && !Under(m.source, p) ensures Keeps(n0, n2, m, p) { assert Keeps(n0, n1, m, p); }
    forall p | p in n2 && p !in n0 ensures MayAdd(n0, n2, m, p) { assert MayAdd(n0, n1, m, p); }
    forall p | p in n0 && Under(m.source, p) ensures Copied(n0, n2, m, p) {
      assert Copied(n0, n1, m, p);
      RebaseUnder(p, m.source, m.target);
      RebaseUnder(p, m.source, m.conflict);
      Disjoint(m.target, m.source, Rebase(p, m.source, m.target));
      Disjoint(m.conflict, m.source, Rebase(p, m.source, m.conflict));
    }
  }

  /** The node of the first state is still at its source, or at its target, or its content at its conflict path. */
  ghost predicate Safe(first: Nodes, n: Nodes, m: Move, p: Path)
    requires p in first && Under(m.source, p)
  {
    var t, c := Rebase(p, m.source, m.target), Rebase(p, m.source, m.conflict);
    if p in n then n[p] == first[p]
    else if first[p].Dir? then IsDir(n, t)
    else (t in n && n[t] == first[p]) || (c in n && n[c] == first[p])
  }

  lemma RunKeepsSafe(first: Nodes, n0: Nodes, n: Nodes, m: Move, p: Path)
    requires Apart(m) && Ran(n0, n, m) && p in first && Under(m.source, p) && Safe(first, n0, m, p)
    ensures Safe(first, n, m, p)
  {
    var t, c := Rebase(p, m.source, m.target), Rebase(p, m.source, m.conflict);
    RebaseUnder(p, m.source, m.target);
    RebaseUnder(p, m.source, m.conflict);
    Disjoint(m.target, m.source, t);
    Disjoint(m.conflict, m.source, c);
    Disjoint(m.target, m.conflict, t);
    if p !in n0 {
      if t in n0 { assert Keeps(n0, n, m, t); }
      if c in n0 { assert Keeps(n0, n, m, c); }
    }
  }

  /** Runs one after the other, each from what the one before left. */
  ghost predicate Runs(states: seq<Nodes>, m: Move) {
    && |states| > 0
    && forall i :: 0 <= i < |states| - 1 ==> Ran(states[i], states[i + 1], m)
  }

  lemma {:induction false} RunsKeepSafe(states: seq<Nodes>, m: Move, p: Path)
    requires Apart(m) && Runs(states, m) && p in states[0] && Under(m.source, p)
    ensures Safe(states[0], states[|states| - 1], m, p)
  {
    if |states| > 1 {
      var before := states[..|states| - 1];
      RunsKeepSafe(before, m, p);
      RunKeepsSafe(states[0], states[|states| - 2], states[|states| - 1], m, p);
    }
  }

  /** A node outside the source and the conflict root never changes. */
  lemma {:induction false} OthersUntouched(states: seq<Nodes>, m: Move, p: Path)
    requires Apart(m) && Runs(states, m) && p in states[0] && !Under(m.source, p) && !Under(m.conflict, p)
    ensures var last := states[|states| - 1]; p in last && last[p] == states[0][p]
  {
    if |states| > 1 {
      OthersUntouched(states[..|states| - 1], m, p);
      assert Keeps(states[|states| - 2], states[|states| - 1], m, p);
    }
  }

  /** No loss: after any number of crashed runs and a complete one, each original file's content is at its target
      or its conflict path, each original directory is at its target, and what the target held before is as it was. */
  lemma NoLoss(states: seq<Nodes>, m: Move, p: Path)
    requires Apart(m) && Runs(states, m) && Gone(states[|states| - 1], m.source) && p in states[0]
    ensures var first, last := states[0], states[|states| - 1];
      && (Under(m.source, p) && first[p].Dir? ==> IsDir(last, Rebase(p, m.source, m.target)))
      && (Under(m.source, p) && first[p].File? ==>
           || (Rebase(p, m.source, m.target) in last && last[Rebase(p, m.source, m.target)] == first[p])
           || (Rebase(p, m.source, m.conflict) in last && last[Rebase(p, m.source, m.conflict)] == first[p]))
      && (Under(m.target, p) ==> p in last && last[p] == first[p])
  {
    if Under(m.source, p) { RunsKeepSafe(states, m, p); }
    if Under(m.target, p) {
      Disjoint(m.target, m.source, p);
      Disjoint(m.target, m.conflict, p);
      OthersUntouched(states, m, p);
    }
  }

  /** The copy to a conflict path does overwrite: a complete run keeps a file that was already there exactly when
      the source has no file for that place, or its target was free, or both files are alike. */
  lemma ConflictFileSurvivesIff(n0: Nodes, n: Nodes, m: Move, c: Path)
    requires Apart(m) && Ran(n0, n, m) && Gone(n, m.source) && IsFile(n0, c) && Under(m.conflict, c)
    ensures var p := Rebase(c, m.conflict, m.source);
      c in n && n[c] == n0[c] <==>
        !IsFile(n0, p) || Rebase(c, m.conflict, m.target) !in n0 || n0[p] == n0[c]
  {
    var p := Rebase(c, m.conflict, m.source);
    RebaseUnder(c, m.conflict, m.source);
    Disjoint(m.conflict, m.source, c);
    assert Keeps(n0, n, m, c);
    if MayOverwrite(n0, m, c) {
      assert Copied(n0, n, m, p);
      assert Rebase(p, m.source, m.target) == Rebase(c, m.conflict, m.target);
    }
  }

  /** Such a run: the target is taken, and an older conflict copy gives way to the source file. */
  lemma ConflictFileIsOverwritten() returns (n0: Nodes, n: Nodes, m: Move)
    ensures Apart(m) && WellFormed(n0) && Ran(n0, n, m) && Gone(n, m.source)
    ensures IsFile(n0, m.conflict) && m.conflict in n && n[m.conflict] != n0[m.conflict]
  {
    m := Move(["source"], ["target"], ["conflict"]);
    n0 := map[[] := Dir, m.source := File("legacy"), m.target := File("current"), m.conflict := File("earlier")];
    n := map[[] := Dir, m.target := File("current"), m.conflict := File("legacy")];
    assert m.source[0] != m.target[0] && m.source[0] != m.conflict[0] && m.target[0] != m.conflict[0];
    forall a, p | p in n0 && Under(a, p) && a != p ensures a == [] { assert |a| < 1; }
    RootRebase(m.conflict, m.source);
    RootRebase(m.conflict, m.target);
    RootRebase(m.source, m.target);
    RootRebase(m.source, m.conflict);
    assert forall p :: p in n0 && Under(m.source, p) ==> p == m.source;
    assert Copied(n0, n, m, m.source);
    assert MayOverwrite(n0, m, m.conflict);
  }
}
