/**
 * Building a runtime tree, and the prediction of whether building it runs an install
 * (internal/packageimport/shared_tree.go, importer.go).
 */
module RuntimeTree {
  import opened Domain

  type Path = seq<string>

  datatype Entry = Folder | Regular(text: string) | Symlink | Special

  type Entries = map<Path, Entry>

  /** A directory as the code meets it: what a walk lists, and what a path through a symlink
      finds. linked: the directory's own path is a symlink, so a walk lists nothing. */
  datatype Directory = Directory(entries: Entries, linked: bool, beyond: Entries)

  /** The declared dependency names of a package.json, each split into its path. */
  datatype Manifest = Manifest(dependencies: set<Path>, optionals: set<Path>, peers: set<Path>, optionalPeers: set<Path>)

  const PACKAGE_JSON: Path := ["package.json"]
  const NODE_MODULES: Path := ["node_modules"]

  predicate IsPrefix(p: Path, q: Path) {
    |p| <= |q| && q[..|p|] == p
  }

  predicate BehindLink(d: Directory, p: Path) {
    d.linked || exists i :: 0 < i < |p| && p[..i] in d.entries && d.entries[p[..i]].Symlink?
  }

  function Lstat(d: Directory, p: Path): Option<Entry> {
    if p in d.entries then Some(d.entries[p])
    else if BehindLink(d, p) && p in d.beyond then Some(d.beyond[p])
    else None
  }

  // ----- copying ---------------------------------------------------------------

  predicate Copied(e: Entry) {
    e.Folder? || e.Regular?
  }

  /** MkdirAll: every prefix of p becomes a folder, unless something else is in the way. */
  predicate CanMakeDirs(t: Entries, p: Path) {
    forall i :: 0 < i <= |p| && p[..i] in t ==> t[p[..i]].Folder?
  }

  function MadeDirs(t: Entries, p: Path): Entries {
    t + map i | 1 <= i <= |p| :: p[..i] := Folder
  }

  /** q is where the copy below `at` of an entry in done goes. */
  predicate Lays(src: Entries, done: set<Path>, at: Path, q: Path) {
    |at| < |q| && q[..|at|] == at && q[|at|..] in done && q[|at|..] in src && Copied(src[q[|at|..]])
  }

  /** q is `at` or a folder it is in, made by the first copy. */
  predicate Above(src: Entries, done: set<Path>, at: Path, q: Path) {
    0 < |q| && IsPrefix(q, at) && exists p :: p in done && p in src && Copied(src[p])
  }

  ghost predicate OverlaidAt(dst: Entries, at: Path, src: Entries, done: set<Path>, out: Entries, q: Path) {
    && (q in out <==> q in dst || Lays(src, done, at, q) || Above(src, done, at, q))
    && (Lays(src, done, at, q) ==> if src[q[|at|..]].Folder? then out[q].Folder? else out[q] == src[q[|at|..]])
    && (Above(src, done, at, q) ==> out[q].Folder?)
    && (q in dst && !Lays(src, done, at, q) ==> out[q] == dst[q])
  }

  /** out is dst with the copied entries of src laid over it below `at`. */
  ghost predicate Overlaid(dst: Entries, at: Path, src: Entries, done: set<Path>, out: Entries) {
    forall q :: OverlaidAt(dst, at, src, done, out, q)
  }

  /** Everything a walk lists is listed after the folders it is in. */
  ghost predicate ParentsIn(src: Entries, done: set<Path>) {
    forall p, i :: p in done && 0 < i < |p| ==> p[..i] in done && p[..i] in src && src[p[..i]].Folder?
  }

  ghost predicate Lists(src: Entries, order: seq<Path>) {
    && (forall p :: p in order <==> p in src)
    && (forall i, j :: 0 <= i < j < |order| ==> order[i] != order[j])
    && forall k, i :: 0 <= k < |order| && 0 < i < |order[k]| ==> order[k][..i] in order[..k] && src[order[k][..i]].Folder?
  }

  /** Something in dst is in the way of the entry p of src: a folder on the way to its place
      that is none, or in its place what it cannot replace. */
  ghost predicate Blocked(dst: Entries, at: Path, src: Entries, p: Path) {
    && p in src && Copied(src[p])
    && exists q :: InTheWay(dst, at, src, p, q)
  }

  predicate InTheWay(dst: Entries, at: Path, src: Entries, p: Path, q: Path)
    requires p in src
  {
    && 0 < |q| && IsPrefix(q, at + p) && q in dst
    && if q == at + p && src[p].Regular? then !dst[q].Regular? else !dst[q].Folder?
  }

  /** The walk and the copies, in the order the walk lists the entries. It stops at the first
      entry that cannot be put where it goes, and so exactly when there is one. */
  method CopyDir(src: Directory, order: seq<Path>, dst: Entries, at: Path) returns (out: Entries, ok: bool)
    requires IsWalk(src) && Lists(src.entries, order)
    ensures ok ==> Overlaid(dst, at, src.entries, src.entries.Keys, out)
    ensures ok <==> forall p :: !Blocked(dst, at, src.entries, p)
  {
    hide Overlaid, CanMakeDirs, ParentsIn, Lists, MadeDirs, Blocked;
    out, ok := dst, true;
    ghost var done: set<Path> := {};
    WalkBegins(dst, at, src.entries);
    for i := 0 to |order|
      invariant forall p :: p in done <==> p in order[..i]
      invariant Overlaid(dst, at, src.entries, done, out) && ParentsIn(src.entries, done)
      invariant forall p :: p in done ==> !Blocked(dst, at, src.entries, p)
    {
      WalkStep(src, order, i, done);
      var p := order[i];
      var e, target := src.entries[p], at + p;
      assert order[..i + 1] == order[..i] + [p];
      BlockedExactly(dst, at, src.entries, done, out, p);
      if e.Folder? {
        if !CanMakeDirs(out, target) {
          return out, false;
        }
        OverlayFolder(dst, at, src.entries, done, out, p);
        out := MadeDirs(out, target);
      } else if e.Regular? {
        var parent := target[..|target| - 1];
        if !CanMakeDirs(out, parent) || (target in out && !out[target].Regular?) {
          return out, false;
        }
        OverlayFile(dst, at, src.entries, done, out, p);
        out := MadeDirs(out, parent)[target := e];
      } else {
        OverlayNothing(dst, at, src.entries, done, out, p);
      }
      done := done + {p};
    }
    WalkEnds(src.entries, order, done);
    NothingElseBlocks(dst, at, src.entries);
  }

  lemma NothingElseBlocks(dst: Entries, at: Path, src: Entries)
    ensures forall p :: p !in src ==> !Blocked(dst, at, src, p)
  {
  }

  /** What stands in p's way when its turn comes stood there from the start. */
  lemma BlockedExactly(dst: Entries, at: Path, src: Entries, done: set<Path>, out: Entries, p: Path)
    requires Overlaid(dst, at, src, done, out) && p in src && p !in done && p != [] && ParentsIn(src, done + {p})
    requires forall k :: k in done ==> !Blocked(dst, at, src, k)
    ensures !Copied(src[p]) ==> !Blocked(dst, at, src, p)
    ensures src[p].Folder? ==> (CanMakeDirs(out, at + p) <==> !Blocked(dst, at, src, p))
    ensures src[p].Regular? ==>
              (CanMakeDirs(out, (at + p)[..|at + p| - 1]) && (at + p in out ==> out[at + p].Regular?)
               <==> !Blocked(dst, at, src, p))
  {
    hide CanMakeDirs, Overlaid, ParentsIn, Blocked;
    forall q | 0 < |q| && IsPrefix(q, at + p) ensures SamePlace(dst, out, at + p, q) {
      PlaceUnchanged(dst, at, src, done, out, p, q);
    }
    if src[p].Folder? {
      FolderBlocked(dst, at, src, out, p);
    } else if src[p].Regular? {
      FileBlocked(dst, at, src, out, p);
    } else {
      assert !Blocked(dst, at, src, p) by { NotCopied(dst, at, src, p); }
    }
  }

  lemma NotCopied(dst: Entries, at: Path, src: Entries, p: Path)
    requires p in src && !Copied(src[p])
    ensures !Blocked(dst, at, src, p)
  {
  }

  /** q blocks after some copies exactly as it did before them. */
  predicate SamePlace(dst: Entries, out: Entries, target: Path, q: Path) {
    if q == target then (q in out <==> q in dst) && (q in out ==> out[q] == dst[q])
    else (q in out && !out[q].Folder?) <==> (q in dst && !dst[q].Folder?)
  }

  lemma FolderBlocked(dst: Entries, at: Path, src: Entries, out: Entries, p: Path)
    requires p in src && src[p].Folder?
    requires forall q :: 0 < |q| && IsPrefix(q, at + p) ==> SamePlace(dst, out, at + p, q)
    ensures CanMakeDirs(out, at + p) <==> !Blocked(dst, at, src, p)
  {
    hide CanMakeDirs;
    PrefixesBlock(out, at + p);
    if !CanMakeDirs(out, at + p) {
      var q :| 0 < |q| && IsPrefix(q, at + p) && q in out && !out[q].Folder?;
      assert SamePlace(dst, out, at + p, q);
      assert InTheWay(dst, at, src, p, q);
    }
    if Blocked(dst, at, src, p) {
      var q :| InTheWay(dst, at, src, p, q);
      assert SamePlace(dst, out, at + p, q);
    }
  }

  lemma FileBlocked(dst: Entries, at: Path, src: Entries, out: Entries, p: Path)
    requires p in src && src[p].Regular? && p != []
    requires forall q :: 0 < |q| && IsPrefix(q, at + p) ==> SamePlace(dst, out, at + p, q)
    ensures CanMakeDirs(out, (at + p)[..|at + p| - 1]) && (at + p in out ==> out[at + p].Regular?)
            <==> !Blocked(dst, at, src, p)
  {
    hide CanMakeDirs;
    var target := at + p;
    var parent := target[..|target| - 1];
    PrefixesBlock(out, parent);
    PrefixesOf(target);
    assert SamePlace(dst, out, target, target);
    if !CanMakeDirs(out, parent) {
      var q :| 0 < |q| && IsPrefix(q, parent) && q in out && !out[q].Folder?;
      assert q != target && SamePlace(dst, out, target, q);
      assert InTheWay(dst, at, src, p, q);
    }
    if target in out && !out[target].Regular? {
      assert InTheWay(dst, at, src, p, target);
    }
    if Blocked(dst, at, src, p) {
      var q :| InTheWay(dst, at, src, p, q);
      assert SamePlace(dst, out, target, q);
      assert q != target ==> IsPrefix(q, parent);
    }
  }

  lemma PrefixesBlock(t: Entries, p: Path)
    ensures CanMakeDirs(t, p) <==> forall q :: 0 < |q| && IsPrefix(q, p) && q in t ==> t[q].Folder?
  {
    if forall q :: 0 < |q| && IsPrefix(q, p) && q in t ==> t[q].Folder? {
      forall i | 0 < i <= |p| && p[..i] in t ensures t[p[..i]].Folder? {
        assert IsPrefix(p[..i], p);
      }
    } else {
      var q :| 0 < |q| && IsPrefix(q, p) && q in t && !t[q].Folder?;
      assert p[..|q|] == q;
    }
  }

  lemma PrefixesOf(target: Path)
    requires target != []
    ensures forall q :: IsPrefix(q, target) <==> q == target || IsPrefix(q, target[..|target| - 1])
  {
    var parent := target[..|target| - 1];
    forall q ensures IsPrefix(q, target) <==> q == target || IsPrefix(q, parent) {
      if IsPrefix(q, target) && |q| < |target| {
        assert parent[..|q|] == target[..|q|];
      }
      if IsPrefix(q, parent) {
        assert target[..|q|] == parent[..|q|];
      }
    }
  }

  /** Before p is copied, nothing on the way to its place has changed from or to a folder. */
  lemma PlaceUnchanged(dst: Entries, at: Path, src: Entries, done: set<Path>, out: Entries, p: Path, q: Path)
    requires Overlaid(dst, at, src, done, out) && p in src && p !in done && p != [] && ParentsIn(src, done + {p})
    requires forall k :: k in done ==> !Blocked(dst, at, src, k)
    requires 0 < |q| && IsPrefix(q, at + p)
    ensures q != at + p ==> ((q in out && !out[q].Folder?) <==> (q in dst && !dst[q].Folder?))
    ensures q == at + p ==> (q in out <==> q in dst) && (q in out ==> out[q] == dst[q])
  {
    assert OverlaidAt(dst, at, src, done, out, q);
    if q == at + p {
      assert q[|at|..] == p;
      assert !IsPrefix(q, at);
    } else {
      PrefixesOfTarget(src, done, at, p, q);
      if Lays(src, done, at, q) {
        LaidFolder(dst, at, src, done, out, p, q);
      } else if Above(src, done, at, q) {
        assert q in out && out[q].Folder?;
        AboveFolder(dst, at, src, done, out, q);
      }
    }
  }

  lemma LaidFolder(dst: Entries, at: Path, src: Entries, done: set<Path>, out: Entries, p: Path, q: Path)
    requires OverlaidAt(dst, at, src, done, out, q) && Lays(src, done, at, q) && src[q[|at|..]].Folder?
    requires forall k :: k in done ==> !Blocked(dst, at, src, k)
    ensures q in out && out[q].Folder? && (q in dst ==> dst[q].Folder?)
  {
    var rel := q[|at|..];
    assert at + rel == q && IsPrefix(q, at + rel);
    assert !InTheWay(dst, at, src, rel, q);
  }

  lemma AboveFolder(dst: Entries, at: Path, src: Entries, done: set<Path>, out: Entries, q: Path)
    requires OverlaidAt(dst, at, src, done, out, q) && Above(src, done, at, q)
    ensures q in dst ==> dst[q].Folder?
  {
  }

  lemma WalkBegins(dst: Entries, at: Path, src: Entries)
    ensures Overlaid(dst, at, src, {}, dst) && ParentsIn(src, {})
  {
  }

  lemma WalkStep(src: Directory, order: seq<Path>, i: nat, done: set<Path>)
    requires IsWalk(src) && Lists(src.entries, order) && i < |order|
    requires (forall p :: p in done <==> p in order[..i]) && ParentsIn(src.entries, done)
    ensures order[i] in src.entries && order[i] !in done && order[i] != [] && ParentsIn(src.entries, done + {order[i]})
  {
    assert order[i] in order;
    forall p, k | p in done + {order[i]} && 0 < k < |p|
      ensures p[..k] in done && p[..k] in src.entries && src.entries[p[..k]].Folder?
    {
      if p == order[i] {
        assert order[i][..k] in order[..i];
        assert order[i][..k] in order;
      }
    }
  }

  lemma WalkEnds(src: Entries, order: seq<Path>, done: set<Path>)
    requires Lists(src, order) && forall p :: p in done <==> p in order[..|order|]
    ensures done == src.Keys
  {
    assert order[..|order|] == order;
  }

  lemma MadeDirsAt(t: Entries, p: Path, q: Path)
    ensures q in MadeDirs(t, p) <==> q in t || (0 < |q| && IsPrefix(q, p))
    ensures 0 < |q| && IsPrefix(q, p) ==> MadeDirs(t, p)[q] == Folder
    ensures q in t && !(0 < |q| && IsPrefix(q, p)) ==> MadeDirs(t, p)[q] == t[q]
  {
    if 0 < |q| && IsPrefix(q, p) {
      assert 1 <= |q| <= |p| && p[..|q|] == q;
    }
  }

  /** A prefix of at + p is above `at`, or the place of a folder p is in, or at + p itself. */
  lemma PrefixesOfTarget(src: Entries, done: set<Path>, at: Path, p: Path, q: Path)
    requires p in src && p != [] && ParentsIn(src, done + {p}) && 0 < |q| && IsPrefix(q, at + p)
    ensures IsPrefix(q, at) || q == at + p || (Lays(src, done, at, q) && src[q[|at|..]].Folder?)
  {
    if |q| <= |at| {
      assert q == (at + p)[..|q|] == at[..|q|];
    } else {
      assert q[..|at|] == at && q[|at|..] == p[..|q| - |at|];
      if |q| - |at| < |p| {
        assert p[..|q| - |at|] in done + {p};
      } else {
        assert p[..|p|] == p;
      }
    }
  }

  /** Only at + p is laid by p. */
  lemma LaysOne(src: Entries, done: set<Path>, at: Path, p: Path, q: Path)
    requires p in src && p != [] && Copied(src[p])
    ensures Lays(src, done + {p}, at, q) <==> Lays(src, done, at, q) || q == at + p
    ensures Above(src, done + {p}, at, q) <==> 0 < |q| && IsPrefix(q, at)
    ensures q == at + p ==> q[|at|..] == p && q[..|at|] == at
  {
    if q == at + p {
      assert q[|at|..] == p && q[..|at|] == at;
    }
    if Lays(src, done + {p}, at, q) && q[|at|..] == p {
      assert q == q[..|at|] + q[|at|..];
    }
    assert p in done + {p};
  }

  lemma OverlayFolder(dst: Entries, at: Path, src: Entries, done: set<Path>, out: Entries, p: Path)
    requires Overlaid(dst, at, src, done, out) && p in src && p !in done && p != [] && src[p].Folder?
    requires CanMakeDirs(out, at + p) && ParentsIn(src, done + {p})
    ensures Overlaid(dst, at, src, done + {p}, MadeDirs(out, at + p))
  {
    forall q ensures OverlaidAt(dst, at, src, done + {p}, MadeDirs(out, at + p), q) {
      assert OverlaidAt(dst, at, src, done, out, q);
      MadeDirsAt(out, at + p, q);
      LaysOne(src, done, at, p, q);
      FolderInTheWay(out, at + p, q);
      if 0 < |q| && IsPrefix(q, at + p) {
        PrefixesOfTarget(src, done, at, p, q);
      }
      if 0 < |q| && IsPrefix(q, at) {
        assert q == (at + p)[..|q|];
      }
      hide MadeDirs, Lays, Above, CanMakeDirs, Overlaid, ParentsIn;
    }
  }

  lemma FolderInTheWay(t: Entries, p: Path, q: Path)
    requires CanMakeDirs(t, p)
    ensures 0 < |q| && IsPrefix(q, p) && q in t ==> t[q].Folder?
  {
    if 0 < |q| && IsPrefix(q, p) {
      assert p[..|q|] == q;
    }
  }

  lemma OverlayFile(dst: Entries, at: Path, src: Entries, done: set<Path>, out: Entries, p: Path)
    requires Overlaid(dst, at, src, done, out) && p in src && p !in done && p != [] && src[p].Regular?
    requires var parent := (at + p)[..|at + p| - 1];
      CanMakeDirs(out, parent) && (at + p in out ==> out[at + p].Regular?)
    requires ParentsIn(src, done + {p})
    ensures Overlaid(dst, at, src, done + {p}, MadeDirs(out, (at + p)[..|at + p| - 1])[at + p := src[p]])
  {
    var parent := (at + p)[..|at + p| - 1];
    var after := MadeDirs(out, parent)[at + p := src[p]];
    forall q ensures OverlaidAt(dst, at, src, done + {p}, after, q) {
      assert OverlaidAt(dst, at, src, done, out, q);
      MadeDirsAt(out, parent, q);
      LaysOne(src, done, at, p, q);
      FolderInTheWay(out, parent, q);
      if 0 < |q| && IsPrefix(q, parent) {
        assert q == (at + p)[..|q|];
        PrefixesOfTarget(src, done, at, p, q);
      }
      if 0 < |q| && IsPrefix(q, at) {
        assert q == parent[..|q|];
      }
      hide MadeDirs, Lays, Above, CanMakeDirs, Overlaid, ParentsIn;
    }
  }

  lemma OverlayNothing(dst: Entries, at: Path, src: Entries, done: set<Path>, out: Entries, p: Path)
    requires Overlaid(dst, at, src, done, out) && p in src && !Copied(src[p])
    ensures Overlaid(dst, at, src, done + {p}, out)
  {
    forall q ensures OverlaidAt(dst, at, src, done + {p}, out, q) {
      assert OverlaidAt(dst, at, src, done, out, q);
      assert Lays(src, done + {p}, at, q) <==> Lays(src, done, at, q);
      assert Above(src, done + {p}, at, q) <==> Above(src, done, at, q);
      hide Lays, Above, Overlaid;
    }
  }

  // ----- the two questions -----------------------------------------------------

  /** What npm would try to resolve. */
  function Dependencies(m: Manifest): set<Path> {
    m.dependencies + (m.peers - m.optionalPeers) + m.optionals
  }

  function ReadManifest(d: Directory, parse: string -> Option<Manifest>): Option<Manifest> {
    match Lstat(d, PACKAGE_JSON)
    case Some(Regular(text)) => parse(text)
    case Some(Symlink) =>
      if PACKAGE_JSON in d.beyond && d.beyond[PACKAGE_JSON].Regular? then parse(d.beyond[PACKAGE_JSON].text) else None
    case _ => None
  }

  /** carriedByCopyDir: an lstat of the last component, through whatever links lead there. */
  predicate Carried(d: Directory, p: Path) {
    match Lstat(d, p)
    case Some(e) => Copied(e)
    case None => false
  }

  predicate CarriedByEither(package: Directory, modules: Option<Directory>, dep: Path) {
    Carried(package, NODE_MODULES + dep) || (modules.Some? && Carried(modules.value, dep))
  }

  /** The prediction, made from the sources before the tree is built. */
  predicate NeedsRuntimeInstall(package: Directory, modules: Option<Directory>, parse: string -> Option<Manifest>) {
    match ReadManifest(package, parse)
    case None => true
    case Some(m) => exists dep :: dep in Dependencies(m) && !CarriedByEither(package, modules, dep)
  }

  function TreeManifest(tree: Entries, parse: string -> Option<Manifest>): Option<Manifest> {
    if PACKAGE_JSON in tree && tree[PACKAGE_JSON].Regular? then parse(tree[PACKAGE_JSON].text) else None
  }

  /** The gate of the install, asked of the built tree. */
  predicate RuntimeDependenciesInstalled(tree: Entries, parse: string -> Option<Manifest>) {
    match TreeManifest(tree, parse)
    case None => false
    case Some(m) =>
      if Dependencies(m) == {} then NODE_MODULES in tree
      else forall dep :: dep in Dependencies(m) ==> NODE_MODULES + dep in tree
  }

  predicate WillRuntimeInstall(tree: Entries, reinstall: bool, localFiles: bool, parse: string -> Option<Manifest>) {
    PACKAGE_JSON in tree && (reinstall || !RuntimeDependenciesInstalled(tree, parse)) && localFiles
  }

  /** copyDir of the package, then of the carried node_modules over it. */
  ghost predicate Built(package: Directory, modules: Option<Directory>, tree: Entries) {
    exists base :: BuiltOver(package, modules, tree, base)
  }

  ghost predicate BuiltOver(package: Directory, modules: Option<Directory>, tree: Entries, base: Entries) {
    && Overlaid(map[], [], package.entries, package.entries.Keys, base)
    && if modules.Some? then Overlaid(base, NODE_MODULES, modules.value.entries, modules.value.entries.Keys, tree) else tree == base
  }

  ghost predicate IsWalk(d: Directory) {
    && (d.linked ==> d.entries == map[])
    && (forall p :: p in d.entries ==> p != [])
    && forall p, q :: p in d.entries && q != p && q != [] && IsPrefix(q, p) ==> q in d.entries && d.entries[q].Folder?
  }

  method BuildRuntimeTree(package: Directory, modules: Option<Directory>, order: seq<Path>, modulesOrder: seq<Path>)
    returns (tree: Entries, ok: bool)
    requires IsWalk(package) && (modules.Some? ==> IsWalk(modules.value))
    requires Lists(package.entries, order) && (modules.Some? ==> Lists(modules.value.entries, modulesOrder))
    ensures ok ==> Built(package, modules, tree)
    ensures modules.None? ==> ok
    ensures !ok ==> modules.Some? && exists base, p ::
              Overlaid(map[], [], package.entries, package.entries.Keys, base) && Blocked(base, NODE_MODULES, modules.value.entries, p)
  {
    hide Overlaid, Lists, IsWalk;
    tree, ok := CopyDir(package, order, map[], []);
    assert ok;
    ghost var base := tree;
    if ok && modules.Some? {
      tree, ok := CopyDir(modules.value, modulesOrder, tree, NODE_MODULES);
    }
    assert ok ==> BuiltOver(package, modules, tree, base);
  }

  // ----- the prediction holds --------------------------------------------------

  /** The dependency's own entry is listed by the walk. */
  predicate InPlace(package: Directory, modules: Option<Directory>, dep: Path) {
    || (NODE_MODULES + dep in package.entries && Copied(package.entries[NODE_MODULES + dep]))
    || (modules.Some? && dep in modules.value.entries && Copied(modules.value.entries[dep]))
  }

  lemma PackageLays(package: Directory, base: Entries, q: Path)
    requires Overlaid(map[], [], package.entries, package.entries.Keys, base) && q != []
    ensures q in base <==> q in package.entries && Copied(package.entries[q])
    ensures q in base && package.entries[q].Regular? ==> base[q] == package.entries[q]
    ensures q in base && package.entries[q].Folder? ==> base[q].Folder?
  {
    assert OverlaidAt(map[], [], package.entries, package.entries.Keys, base, q);
    assert q[0..] == q && q[..0] == [];
  }

  lemma BuiltHolds(package: Directory, modules: Option<Directory>, tree: Entries, dep: Path)
    requires Built(package, modules, tree) && dep != []
    ensures NODE_MODULES + dep in tree <==> InPlace(package, modules, dep)
  {
    var q := NODE_MODULES + dep;
    var base :| BuiltOver(package, modules, tree, base);
    PackageLays(package, base, q);
    if modules.Some? {
      assert OverlaidAt(base, NODE_MODULES, modules.value.entries, modules.value.entries.Keys, tree, q);
      assert q[..1] == NODE_MODULES && q[1..] == dep;
    }
  }

  lemma BuiltManifest(package: Directory, modules: Option<Directory>, tree: Entries, parse: string -> Option<Manifest>)
    requires Built(package, modules, tree)
    ensures TreeManifest(tree, parse) ==
            if PACKAGE_JSON in package.entries && package.entries[PACKAGE_JSON].Regular? then ReadManifest(package, parse) else None
    ensures PACKAGE_JSON in tree <==> PACKAGE_JSON in package.entries && Copied(package.entries[PACKAGE_JSON])
  {
    var base :| BuiltOver(package, modules, tree, base);
    PackageLays(package, base, PACKAGE_JSON);
    if modules.Some? {
      assert OverlaidAt(base, NODE_MODULES, modules.value.entries, modules.value.entries.Keys, tree, PACKAGE_JSON);
      assert PACKAGE_JSON[0] != NODE_MODULES[0] && NODE_MODULES[..1] == NODE_MODULES;
    }
  }

  /** What is in place is carried; what is carried but not in place is behind a symlink. */
  lemma InPlaceIsCarried(package: Directory, modules: Option<Directory>, dep: Path)
    ensures InPlace(package, modules, dep) ==> CarriedByEither(package, modules, dep)
    ensures CarriedByEither(package, modules, dep) && !InPlace(package, modules, dep) ==>
              BehindLink(package, NODE_MODULES + dep) || (modules.Some? && BehindLink(modules.value, dep))
  {
  }

  ghost predicate DepsArePaths(m: Manifest) {
    forall dep :: dep in Dependencies(m) ==> dep != []
  }

  /**
   * The prediction is the opposite of the gate's answer on the built tree exactly when being
   * carried means being in place - as it does unless a symlink leads to a dependency.
   */
  lemma PredictionExact(package: Directory, modules: Option<Directory>, tree: Entries, parse: string -> Option<Manifest>, m: Manifest)
    requires Built(package, modules, tree)
    requires PACKAGE_JSON in package.entries && package.entries[PACKAGE_JSON].Regular?
    requires ReadManifest(package, parse) == Some(m) && Dependencies(m) != {} && DepsArePaths(m)
    ensures (NeedsRuntimeInstall(package, modules, parse) <==> !RuntimeDependenciesInstalled(tree, parse))
            <==> ((forall dep :: dep in Dependencies(m) ==> CarriedByEither(package, modules, dep)) ==>
                  forall dep :: dep in Dependencies(m) ==> InPlace(package, modules, dep))
  {
    BuiltManifest(package, modules, tree, parse);
    hide Built, ReadManifest, TreeManifest, CarriedByEither, InPlace, Dependencies;
    forall dep | dep in Dependencies(m)
      ensures (NODE_MODULES + dep in tree <==> InPlace(package, modules, dep))
      ensures InPlace(package, modules, dep) ==> CarriedByEither(package, modules, dep)
    {
      BuiltHolds(package, modules, tree, dep);
      InPlaceIsCarried(package, modules, dep);
    }
  }

  ghost predicate NoSymlinkedAncestor(package: Directory, modules: Option<Directory>, m: Manifest) {
    forall dep :: dep in Dependencies(m) ==>
      !BehindLink(package, NODE_MODULES + dep) && (modules.Some? ==> !BehindLink(modules.value, dep))
  }

  lemma PredictionHolds(package: Directory, modules: Option<Directory>, tree: Entries, parse: string -> Option<Manifest>, m: Manifest)
    requires Built(package, modules, tree)
    requires PACKAGE_JSON in package.entries && package.entries[PACKAGE_JSON].Regular?
    requires ReadManifest(package, parse) == Some(m) && Dependencies(m) != {} && DepsArePaths(m)
    requires NoSymlinkedAncestor(package, modules, m)
    ensures NeedsRuntimeInstall(package, modules, parse) <==> !RuntimeDependenciesInstalled(tree, parse)
  {
    PredictionExact(package, modules, tree, parse, m);
    hide Built, ReadManifest, CarriedByEither, InPlace, Dependencies, BehindLink;
    forall dep | dep in Dependencies(m) && CarriedByEither(package, modules, dep) ensures InPlace(package, modules, dep) {
      InPlaceIsCarried(package, modules, dep);
    }
  }

  /** sharingEligible, for a package that is not one of the local examples. */
  predicate Shareable(package: Directory, modules: Option<Directory>, reinstall: bool, parse: string -> Option<Manifest>) {
    !reinstall && !NeedsRuntimeInstall(package, modules, parse)
  }

  /** So building a shareable tree that declares dependencies never runs an install - not
      even when package.json is a symlink, which the copy drops. */
  lemma ShareableNeverInstalls(package: Directory, modules: Option<Directory>, tree: Entries, reinstall: bool, localFiles: bool,
                               parse: string -> Option<Manifest>, m: Manifest)
    requires Built(package, modules, tree) && Shareable(package, modules, reinstall, parse)
    requires ReadManifest(package, parse) == Some(m) && Dependencies(m) != {} && DepsArePaths(m)
    requires NoSymlinkedAncestor(package, modules, m)
    ensures !WillRuntimeInstall(tree, reinstall, localFiles, parse)
  {
    BuiltManifest(package, modules, tree, parse);
    if PACKAGE_JSON in package.entries && package.entries[PACKAGE_JSON].Regular? {
      PredictionHolds(package, modules, tree, parse, m);
    }
  }

  /** A package whose scope directory is a symlink: its dependency counts as carried, the
      copy drops it, and the tree that was called shareable is built by an install. */
  lemma LinkedScopeMisleads()
    ensures exists package, tree, parse ::
      && IsWalk(package) && Built(package, None, tree)
      && Shareable(package, None, false, parse) && WillRuntimeInstall(tree, false, true, parse)
  {
    var dep: Path := ["@scope", "dep"];
    var m := Manifest({dep}, {}, {}, {});
    var parse: string -> Option<Manifest> := (text: string) => Some(m);
    var package := Directory(map[PACKAGE_JSON := Regular(""), NODE_MODULES := Folder, NODE_MODULES + ["@scope"] := Symlink], false,
                             map[NODE_MODULES + dep := Folder]);
    var tree: Entries := map[PACKAGE_JSON := Regular(""), NODE_MODULES := Folder];
    assert |NODE_MODULES + ["@scope"]| == 2 && |NODE_MODULES + dep| == 3;
    assert IsWalk(package) by {
      forall p, q | p in package.entries && q != p && q != [] && IsPrefix(q, p) ensures q in package.entries && package.entries[q].Folder? {
        assert p == NODE_MODULES + ["@scope"] ==> q == NODE_MODULES;
      }
    }
    assert Overlaid(map[], [], package.entries, package.entries.Keys, tree) by {
      forall q ensures OverlaidAt(map[], [], package.entries, package.entries.Keys, tree, q) {
        assert q != [] ==> q[0..] == q && q[..0] == [];
      }
    }
    assert BuiltOver(package, None, tree, tree);
    assert Carried(package, NODE_MODULES + dep) by {
      assert (NODE_MODULES + dep)[..2] == NODE_MODULES + ["@scope"];
      assert BehindLink(package, NODE_MODULES + dep);
    }
    assert Dependencies(m) == {dep};
    assert ReadManifest(package, parse) == Some(m) && TreeManifest(tree, parse) == Some(m);
    assert Shareable(package, None, false, parse);
    assert NODE_MODULES + dep !in tree;
    assert WillRuntimeInstall(tree, false, true, parse);
  }

  // ----- in the manifest's own terms -------------------------------------------

  /** The prediction is an install exactly when some name that is a dependency, an optional
      dependency, or a peer not marked optional is carried by neither source. */
  lemma PredictionReads(package: Directory, modules: Option<Directory>, parse: string -> Option<Manifest>, m: Manifest)
    requires ReadManifest(package, parse) == Some(m)
    ensures NeedsRuntimeInstall(package, modules, parse) <==>
      || (exists dep :: dep in m.dependencies && !CarriedByEither(package, modules, dep))
      || (exists dep :: dep in m.optionals && !CarriedByEither(package, modules, dep))
      || (exists dep :: dep in m.peers && dep !in m.optionalPeers && !CarriedByEither(package, modules, dep))
  {
    hide ReadManifest, CarriedByEither;
    if dep :| dep in m.dependencies && !CarriedByEither(package, modules, dep) {
      assert dep in Dependencies(m);
    }
    if dep :| dep in m.optionals && !CarriedByEither(package, modules, dep) {
      assert dep in Dependencies(m);
    }
    if dep :| dep in m.peers && dep !in m.optionalPeers && !CarriedByEither(package, modules, dep) {
      assert dep in Dependencies(m);
    }
  }

  /** The gate says installed exactly when every such name is in the tree - or, with no such
      name, when there is a node_modules at all. */
  lemma GateReads(tree: Entries, parse: string -> Option<Manifest>, m: Manifest)
    requires TreeManifest(tree, parse) == Some(m)
    ensures RuntimeDependenciesInstalled(tree, parse) <==>
      && (forall dep :: dep in m.dependencies ==> NODE_MODULES + dep in tree)
      && (forall dep :: dep in m.optionals ==> NODE_MODULES + dep in tree)
      && (forall dep :: dep in m.peers && dep !in m.optionalPeers ==> NODE_MODULES + dep in tree)
      && (m.dependencies == {} && m.optionals == {} && m.peers <= m.optionalPeers ==> NODE_MODULES in tree)
  {
    hide TreeManifest;
    if Dependencies(m) == {} {
      assert m.dependencies <= Dependencies(m) && m.optionals <= Dependencies(m) && m.peers - m.optionalPeers <= Dependencies(m);
      assert forall dep :: dep in m.peers && dep !in m.optionalPeers ==> dep in Dependencies(m);
    } else {
      var dep :| dep in Dependencies(m);
      assert dep in m.dependencies || dep in m.optionals || (dep in m.peers && dep !in m.optionalPeers);
      assert forall d :: d in m.dependencies || d in m.optionals || (d in m.peers && d !in m.optionalPeers) ==> d in Dependencies(m);
    }
  }

  /** A peer marked optional changes neither answer by being declared. */
  lemma OptionalPeerIsSilent(package: Directory, modules: Option<Directory>, tree: Entries,
                             parse: string -> Option<Manifest>, parse': string -> Option<Manifest>, m: Manifest, peer: Path)
    requires peer in m.optionalPeers
    requires ReadManifest(package, parse) == Some(m) && ReadManifest(package, parse') == Some(m.(peers := m.peers + {peer}))
    requires TreeManifest(tree, parse) == Some(m) && TreeManifest(tree, parse') == Some(m.(peers := m.peers + {peer}))
    ensures NeedsRuntimeInstall(package, modules, parse) <==> NeedsRuntimeInstall(package, modules, parse')
    ensures RuntimeDependenciesInstalled(tree, parse) <==> RuntimeDependenciesInstalled(tree, parse')
  {
    hide ReadManifest, TreeManifest, CarriedByEither;
    assert Dependencies(m) == Dependencies(m.(peers := m.peers + {peer}));
  }

  /** A shareable tree holds everything its package declares: dependencies, optional ones, and
      the peers not marked optional. */
  lemma ShareableTreeIsComplete(package: Directory, modules: Option<Directory>, tree: Entries, reinstall: bool,
                                parse: string -> Option<Manifest>, m: Manifest, dep: Path)
    requires Built(package, modules, tree) && Shareable(package, modules, reinstall, parse)
    requires ReadManifest(package, parse) == Some(m) && DepsArePaths(m) && NoSymlinkedAncestor(package, modules, m)
    requires dep in m.dependencies || dep in m.optionals || (dep in m.peers && dep !in m.optionalPeers)
    ensures NODE_MODULES + dep in tree
  {
    assert dep in Dependencies(m);
    hide Built, ReadManifest, InPlace, BehindLink;
    InPlaceIsCarried(package, modules, dep);
    BuiltHolds(package, modules, tree, dep);
  }
}
