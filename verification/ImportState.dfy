/**
 * The state imports, recovery and collection work on, as predicates and relations, and what
 * each step does to them.
 */
module ImportState {
  import opened Domain
  import opened Files
  import opened Commit
  import opened Trees

  /** A prepared package: the version it will be, the carried modules, and the directories
      the two trees are copied from when they cannot be shared. */
  datatype Source = Source(
    version: Version, modules: string, offline: bool, shareable: bool,
    package: map<string, Node>, runtime: map<string, Node>, scratch: map<string, Node>)

  /** One service a recursive import finds in the package. */
  datatype Candidate = Candidate(id: string, descriptor: string, stored: bool)

  function SourceOf(base: Source, c: Candidate): Source {
    base.(version := base.version.(descriptor := c.descriptor))
  }

  /** What a daemon does between two restarts. */
  datatype Act =
    | DoImport(id: string, src: Source, stop: Stop, stored: bool, now: int)
    | DoImportRecursive(src: Source, found: seq<Candidate>, stop: Stop, now: int)
    | DoSweep(order: seq<Key>, now: int, minAge: int)

  datatype DaemonLife = DaemonLife(budget: nat, torn: Node -> Node, acts: seq<Act>)

  predicate DistinctIds(found: seq<Candidate>) {
    && (forall i :: 0 <= i < |found| ==> ValidId(found[i].id))
    && (forall i, j :: 0 <= i < j < |found| ==> found[i].id != found[j].id)
  }

  predicate ActOk(act: Act) {
    match act
    case DoImport(id, src, _, _, _) => ValidId(id) && WellFormed(src)
    case DoImportRecursive(src, found, _, _) => DistinctIds(found) && WellFormed(src)
    case DoSweep(_, _, _) => true
  }

  ghost predicate LifeOk(life: DaemonLife) {
    Tears(life.torn) && forall a :: a in life.acts ==> ActOk(a)
  }

  ghost predicate AllSafe(services: map<string, Node>, rows: map<string, Version>) {
    forall id :: ValidId(id) ==> Safe(SlotOf(services, rows, id))
  }

  /** Every stored service's dir matches its row, and neither backup nor staging tree is left. */
  ghost predicate AllSettled(services: map<string, Node>, rows: map<string, Version>) {
    && (forall id :: ValidId(id) ==> Settled(SlotOf(services, rows, id)))
    && (forall n :: n in services ==> !Marked(n))
  }

  /** Where an import returns early, by an error or because it is a dry run. */
  datatype Stop = AfterSource | AfterRuntime | AfterStaging | Never

  function Get<K, V>(m: map<K, V>, k: K): Option<V> {
    if k in m then Some(m[k]) else None
  }

  function SlotOf(services: map<string, Node>, rows: map<string, Version>, id: string): Slot {
    Slot(Get(services, id), Get(services, BackupName(id)), Get(rows, id))
  }

  ghost predicate SameElsewhere<V>(before: map<string, V>, after: map<string, V>, names: set<string>) {
    forall n :: n !in names ==> Get(before, n) == Get(after, n)
  }

  predicate OnlyDirs(services: map<string, Node>) {
    forall n :: n in services ==> services[n].Dir?
  }

  /** Copies carry no links, and no artifact is named like another entry of a service dir. */
  predicate WellFormed(src: Source) {
    && LinkFree(Dir(src.package)) && LinkFree(Dir(src.runtime)) && LinkFree(Dir(src.scratch))
    && src.version.artifactName !in {"package", "runtime", DESCRIPTOR_FILE_NAME}
    && "service" !in src.scratch
  }

  function KeyOf(src: Source): Key {
    Key(src.version.artifact, src.modules, src.offline)
  }

  function LinkOrCopy(tree: Option<Key>, copy: map<string, Node>): Node {
    if tree.Some? then Link(tree.value) else Dir(copy)
  }

  /** The service directory an import puts together; a tree is linked, no tree is copied. */
  function StagedDir(src: Source, tree: Option<Key>): Node {
    Dir(map[src.version.artifactName := File(src.version.artifact),
            "package" := LinkOrCopy(tree, src.package),
            "runtime" := LinkOrCopy(tree, src.runtime),
            DESCRIPTOR_FILE_NAME := File(src.version.descriptor)])
  }

  /** The tree a package calls for: one in the store whose every input is the package's own, if
      it can be shared, and none if not. */
  predicate RightTree(src: Source, tree: Option<Key>, trees: map<Key, Tree>) {
    if src.shareable then
      && tree.Some? && tree.value in trees
      && tree.value.artifact == src.version.artifact && tree.value.modules == src.modules && tree.value.offline == src.offline
    else tree == None
  }

  /** The service's dir holds the package and the runtime of src: its own copies, or two links
      to the one shared tree it calls for. */
  predicate HoldsTrees(services: map<string, Node>, trees: map<Key, Tree>, id: string, src: Source) {
    && id in services && services[id].Dir?
    && var dir := services[id].entries;
       && "package" in dir && "runtime" in dir
       && if src.shareable then
            dir["package"].Link? && dir["runtime"] == dir["package"] && RightTree(src, Some(dir["package"].target), trees)
          else dir["package"] == Dir(src.package) && dir["runtime"] == Dir(src.runtime)
  }

  lemma StagedHoldsTrees(services: map<string, Node>, trees: map<Key, Tree>, id: string, src: Source, tree: Option<Key>)
    requires WellFormed(src) && RightTree(src, tree, trees) && Get(services, id) == Some(StagedDir(src, tree))
    ensures HoldsTrees(services, trees, id, src)
  {
  }

  lemma HoldsElsewhere(before: map<string, Node>, after: map<string, Node>, trees: map<Key, Tree>, id: string, src: Source)
    requires HoldsTrees(before, trees, id, src) && Get(after, id) == Get(before, id)
    ensures HoldsTrees(after, trees, id, src)
  {
  }

  /** Two packages share a tree exactly when nothing that goes into one differs. */
  lemma KeysDistinguish(a: Source, b: Source)
    ensures KeyOf(a) == KeyOf(b) <==>
              a.version.artifact == b.version.artifact && a.modules == b.modules && a.offline == b.offline
    ensures TreeOf(KeyOf(a)) == TreeOf(KeyOf(b)) <==> a.version.artifact == b.version.artifact && a.modules == b.modules
  {
    var s, t := TreeOf(KeyOf(a)), TreeOf(KeyOf(b));
    assert s.entries["package.json"] == File(a.version.artifact) && t.entries["package.json"] == File(b.version.artifact);
    assert s.entries["node_modules"].entries["content"] == File(a.modules);
    assert t.entries["node_modules"].entries["content"] == File(b.modules);
  }

  /**
   * What the link invariant says of the directories themselves: every package and runtime link
   * of a service, of a backup, and of the service dir in a staging tree leads to a tree.
   */
  lemma LinksResolve(services: map<string, Node>, trees: map<Key, Tree>, name: string, entry: string, key: Key)
    requires LinksOk(services, trees) && name in services && services[name].Dir? && entry in {"package", "runtime"}
    ensures entry in services[name].entries && services[name].entries[entry] == Link(key) ==> key in trees
    ensures HasCommitDir(services, name) && entry in CommitEntries(services, name) && CommitEntries(services, name)[entry] == Link(key)
            ==> key in trees
  {
    LinksIn(services, name);
    StagedDirLinks(services[name]);
  }

  lemma StagedDirLinks(dir: Node)
    requires dir.Dir?
    ensures "service" in dir.entries ==> DirLinks(dir.entries["service"]) <= NodeLinks(dir)
  {
  }

  lemma StagedMatches(src: Source, tree: Option<Key>)
    requires WellFormed(src)
    ensures Matches(src.version, StagedDir(src, tree))
    ensures NodeLinks(StagedDir(src, tree)) == DirLinks(StagedDir(src, tree)) <= if tree.Some? then {tree.value} else {}
  {
    var dir := StagedDir(src, tree);
    forall name, key | name in dir.entries && key in DirLinks(dir.entries[name]) ensures false {
      LinkFreeInside(dir.entries[name]);
    }
  }

  /** The entries in the order they are put there. */
  lemma StagedInOrder(src: Source, tree: Option<Key>)
    ensures StagedDir(src, tree) ==
            Dir(map[][src.version.artifactName := File(src.version.artifact)]
                     ["package" := LinkOrCopy(tree, src.package)]
                     ["runtime" := LinkOrCopy(tree, src.runtime)]
                     [DESCRIPTOR_FILE_NAME := File(src.version.descriptor)])
  {
  }

  lemma LinkFreeInside(node: Node)
    ensures LinkFree(node) || node.File? || node.Link? ==> DirLinks(node) == {}
  {
    if LinkFree(node) && node.Dir? {
      assert forall k :: k in node.entries ==> LinkFree(node.entries[k]) && !node.entries[k].Link?;
    }
  }

  // What each file operation does to the references.

  lemma RemoveKeepsLinks(services: map<string, Node>, trees: map<Key, Tree>, name: string)
    requires LinksOk(services, trees) && OnlyDirs(services)
    ensures LinksOk(services - {name}, trees) && OnlyDirs(services - {name})
  {
    ReferencedWithout(services, {name});
  }

  lemma TearKeepsLinks(services: map<string, Node>, trees: map<Key, Tree>, name: string, torn: Node -> Node)
    requires LinksOk(services, trees) && OnlyDirs(services) && name in services && Tears(torn)
    ensures LinksOk(services[name := torn(services[name])], trees) && OnlyDirs(services[name := torn(services[name])])
  {
    assert Pruned(services[name], torn(services[name]));
    PrunedLinks(services[name], torn(services[name]));
    LinksIn(services, name);
    ReferencedAfter(services, name, torn(services[name]));
  }

  lemma MoveKeepsLinks(services: map<string, Node>, trees: map<Key, Tree>, from: string, to: string)
    requires LinksOk(services, trees) && OnlyDirs(services) && from in services
    ensures var moved := (services - {from})[to := services[from]]; LinksOk(moved, trees) && OnlyDirs(moved)
  {
    LinksIn(services, from);
    ReferencedWithout(services, {from});
    ReferencedAfter(services - {from}, to, services[from]);
  }

  lemma InstallKeepsLinks(services: map<string, Node>, trees: map<Key, Tree>, id: string, staging: string)
    requires LinksOk(services, trees) && OnlyDirs(services) && HoldsStaged(services, staging)
    ensures var t := Installed(services, id, staging); LinksOk(t, trees) && OnlyDirs(t)
  {
    var node := services[staging];
    var rest := Dir(node.entries - {"service"});
    assert Pruned(node, rest);
    PrunedLinks(node, rest);
    LinksIn(services, staging);
    ReferencedAfter(services, staging, rest);
    StagedLinks(node);
    ReferencedAfter(services[staging := rest], id, node.entries["service"]);
  }

  function Installed(services: map<string, Node>, id: string, staging: string): map<string, Node>
    requires staging in services && services[staging].Dir? && "service" in services[staging].entries
  {
    services[staging := Dir(services[staging].entries - {"service"})][id := services[staging].entries["service"]]
  }

  /** Every link points at a tree in the store. */
  ghost predicate LinksOk(services: map<string, Node>, trees: map<Key, Tree>) {
    Referenced(services) <= trees.Keys
  }

  /** At most the one tree was added, and it is whole. */
  ghost predicate PublishedAtMost(before: map<Key, Tree>, after: map<Key, Tree>, key: Key, now: int) {
    after == before || after == Published(before, key, now)
  }

  ghost predicate IsStaging(name: string) {
    IsStagingDirName(name) && forall id :: ValidId(id) ==> name != BackupName(id) && name != id
  }

  /** The staging tree holds a finished service dir whose links lead one level deep. */
  ghost predicate HoldsStaged(services: map<string, Node>, staging: string) {
    && staging in services && services[staging].Dir? && "service" in services[staging].entries
    && services[staging].entries["service"].Dir?
    && NodeLinks(services[staging].entries["service"]) == DirLinks(services[staging].entries["service"])
  }

  ghost function StagedAt(services: map<string, Node>, staging: string): Node
    requires HoldsStaged(services, staging)
  {
    services[staging].entries["service"]
  }

  lemma StagedLinks(node: Node)
    requires node.Dir? && "service" in node.entries
    ensures DirLinks(node.entries["service"]) <= NodeLinks(node)
  {
  }

  lemma LinksIn(services: map<string, Node>, name: string)
    requires name in services
    ensures NodeLinks(services[name]) <= Referenced(services)
  {
  }

  lemma NamesDiffer(id: string, staging: string)
    requires ValidId(id) && IsStaging(staging)
    ensures id != BackupName(id) && id != staging && BackupName(id) != staging
  {
    NamespacesAreDisjoint(id, id);
  }

  /** The trees a node leads to when it is put into a staging tree. */
  function Reach(node: Node): set<Key> {
    DirLinks(node) + if node.Link? then {node.target} else {}
  }

  function WithEntry(services: map<string, Node>, staging: string, name: string, node: Node): map<string, Node>
    requires staging in services && services[staging].Dir?
  {
    services[staging := Dir(services[staging].entries[name := node])]
  }

  predicate HasCommitDir(services: map<string, Node>, staging: string) {
    && staging in services && services[staging].Dir?
    && "service" in services[staging].entries && services[staging].entries["service"].Dir?
  }

  function CommitEntries(services: map<string, Node>, staging: string): map<string, Node>
    requires HasCommitDir(services, staging)
  {
    services[staging].entries["service"].entries
  }

  lemma PutKeepsLinks(services: map<string, Node>, trees: map<Key, Tree>, staging: string, name: string, node: Node)
    requires LinksOk(services, trees) && OnlyDirs(services) && staging in services && Reach(node) <= trees.Keys
    ensures var t := WithEntry(services, staging, name, node); LinksOk(t, trees) && OnlyDirs(t)
  {
    var dir := services[staging];
    LinksIn(services, staging);
    PutLinks(dir, name, node);
    ReferencedAfter(services, staging, Dir(dir.entries[name := node]));
  }

  lemma PutLinks(dir: Node, name: string, node: Node)
    requires dir.Dir?
    ensures NodeLinks(Dir(dir.entries[name := node])) <= NodeLinks(dir) + Reach(node)
  {
    var t := Dir(dir.entries[name := node]);
    forall n, key | n in t.entries && key in DirLinks(t.entries[n]) ensures key in NodeLinks(dir) + Reach(node) {
      assert n != name ==> key in DirLinks(dir.entries[n]);
    }
  }

  lemma CommitReach(services: map<string, Node>, trees: map<Key, Tree>, staging: string, name: string, node: Node)
    requires LinksOk(services, trees) && HasCommitDir(services, staging)
    requires node.Link? ==> node.target in trees
    ensures Reach(Dir(CommitEntries(services, staging)[name := node])) <= trees.Keys
  {
    LinksIn(services, staging);
    StagedLinks(services[staging]);
  }

  // ----- what an import does to its own service --------------------------------

  /** t is s after a commit of the staged dir, cut or not. */
  predicate CommittedAs(s: Slot, t: Slot, src: Source, stored: bool, tree: Option<Key>, cut: Cut, done: bool) {
    (t, done) == CommitImported(s, StagedDir(src, tree), src.version, stored, cut)
  }

  /** What one import leaves of its service: nothing happened, or a commit did, cut or not. */
  ghost predicate Imported(s: Slot, t: Slot, src: Source, stored: bool, torn: Node -> Node, alive: bool, whole: bool) {
    || (t == s && (alive ==> !whole))
    || (whole && Committed(s, t, src, stored, torn, alive))
  }

  ghost predicate Committed(s: Slot, t: Slot, src: Source, stored: bool, torn: Node -> Node, alive: bool) {
    exists tree: Option<Key>, at: nat, done: bool ::
      CommittedAs(s, t, src, stored, tree, Cut(at, torn), done) && (alive ==> done)
  }

  /** A stored commit that is not cut leaves the staged dir live. */
  lemma CommittedHolds(s: Slot, t: Slot, src: Source, tree: Option<Key>, cut: Cut)
    requires CommittedAs(s, t, src, true, tree, cut, true)
    ensures t.live == Some(StagedDir(src, tree))
  {
  }

  lemma StagingNames(id: string)
    requires ValidId(id)
    ensures IsStaging(StagingName(id)) && id != StagingName(id) && BackupName(id) != StagingName(id) && id != BackupName(id)
  {
    forall other | ValidId(other) ensures StagingName(id) != BackupName(other) && StagingName(id) != other {
      NamespacesAreDisjoint(id, other);
      NamespacesAreDisjoint(other, id);
    }
    NamespacesAreDisjoint(id, id);
  }

  /** Work in a staging tree leaves every service as it is. */
  lemma SlotElsewhere(before: map<string, Node>, after: map<string, Node>, rows: map<string, Version>, id: string, staging: string)
    ensures SameElsewhere(before, after, {staging}) && id != staging && BackupName(id) != staging ==>
              SlotOf(before, rows, id) == SlotOf(after, rows, id)
  {
    hide BackupName;
    if SameElsewhere(before, after, {staging}) && id != staging && BackupName(id) != staging {
      assert Get(before, id) == Get(after, id) && Get(before, BackupName(id)) == Get(after, BackupName(id));
    }
  }

  lemma OnlyDirsHere(services: map<string, Node>, name: string)
    requires OnlyDirs(services) && name in services
    ensures services[name].Dir?
  {
  }

  lemma DropKeepsLinks(services: map<string, Node>, trees: map<Key, Tree>, staging: string, name: string)
    requires LinksOk(services, trees) && OnlyDirs(services) && staging in services
    ensures var t := services[staging := Dir(services[staging].entries - {name})]; LinksOk(t, trees) && OnlyDirs(t)
  {
    var rest := Dir(services[staging].entries - {name});
    assert Pruned(services[staging], rest);
    PrunedLinks(services[staging], rest);
    LinksIn(services, staging);
    ReferencedAfter(services, staging, rest);
  }

  lemma PartKeepsLinks(services: map<string, Node>, trees: map<Key, Tree>, staging: string, name: string, torn: Node -> Node)
    requires LinksOk(services, trees) && OnlyDirs(services) && staging in services && Tears(torn)
    requires name in services[staging].entries && services[staging].entries[name].Dir?
    ensures var t := services[staging := Dir(services[staging].entries[name := torn(services[staging].entries[name])])];
      LinksOk(t, trees) && OnlyDirs(t)
  {
    var dir := services[staging];
    assert Pruned(dir.entries[name], torn(dir.entries[name]));
    var rest := Dir(dir.entries[name := torn(dir.entries[name])]);
    assert Pruned(dir, rest);
    PrunedLinks(dir, rest);
    LinksIn(services, staging);
    ReferencedAfter(services, staging, rest);
  }

  lemma MoreTreesKeepLinks(services: map<string, Node>, trees: map<Key, Tree>, key: Key, tree: Tree)
    requires LinksOk(services, trees)
    ensures LinksOk(services, trees[key := tree])
  {
  }

  lemma TreeOfIsLinkFree(key: Key)
    ensures LinkFree(TreeOf(key)) && TreeOf(key).Dir?
  {
  }

  // ----- what a recovery sweep does --------------------------------------------

  /** t is s untouched, recovered, or on the way. */
  ghost predicate Sweeping(s: Slot, t: Slot, torn: Node -> Node) {
    t == s || exists at: nat :: t == Recover(s, Cut(at, torn)).0
  }

  /** A completed sweep, as a relation on the whole services directory. */
  ghost predicate Swept(before: map<string, Node>, after: map<string, Node>, rows: map<string, Version>) {
    && (forall id :: ValidId(id) ==> SlotOf(after, rows, id) == Recovered(SlotOf(before, rows, id)))
    && (forall n :: n in after ==> !IsStagingDirName(n) && BackupServiceId(n) == None)
    && (forall n :: !IsStagingDirName(n) && BackupServiceId(n) == None && !ValidId(n) ==> Get(after, n) == Get(before, n))
  }

  predicate Marked(name: string) {
    IsStagingDirName(name) || BackupServiceId(name).Some?
  }

  /** The sweep has met every name but those in todo. */
  ghost predicate SweptBut(before: map<string, Node>, now: map<string, Node>, rows: map<string, Version>, todo: set<string>) {
    && todo <= before.Keys
    && (forall id :: ValidId(id) ==> SlotOf(now, rows, id) == SlotBut(before, rows, todo, id))
    && (forall n :: n in now && Marked(n) ==> n in todo)
    && (forall n :: !Marked(n) && !ValidId(n) ==> Get(now, n) == Get(before, n))
  }

  function SlotBut(before: map<string, Node>, rows: map<string, Version>, todo: set<string>, id: string): Slot {
    if BackupName(id) in todo then SlotOf(before, rows, id) else Recovered(SlotOf(before, rows, id))
  }

  ghost predicate Reported(before: map<string, Node>, rows: map<string, Version>, todo: set<string>,
                           restored: set<string>, discarded: set<string>, staging: set<string>)
  {
    && (forall n :: n in staging <==> n in before && n !in todo && IsStagingDirName(n))
    && (forall id :: id in restored <==> Met(before, todo, id) && NeedsRollback(SlotOf(before, rows, id)))
    && (forall id :: id in discarded <==> Met(before, todo, id) && !NeedsRollback(SlotOf(before, rows, id)))
  }

  predicate Met(before: map<string, Node>, todo: set<string>, id: string) {
    ValidId(id) && BackupName(id) in before && BackupName(id) !in todo
  }

  lemma Unmarked(name: string)
    ensures Marked(name) <==> IsStagingDirName(name) || BackupServiceId(name).Some?
  {
  }

  lemma OneNameMoved(before: map<string, Node>, after: map<string, Node>, name: string)
    requires after == before || after == before - {name} || (name in after && after == before[name := after[name]])
    ensures SameElsewhere(before, after, {name})
  {
  }

  lemma SweepBegins(before: map<string, Node>, rows: map<string, Version>)
    ensures SweptBut(before, before, rows, before.Keys) && Reported(before, rows, before.Keys, {}, {}, {})
  {
    forall id | ValidId(id) ensures SlotOf(before, rows, id) == SlotBut(before, rows, before.Keys, id) { }
  }

  /** A staging name is no service's live or backup name. */
  lemma StagingIsNoSlot(name: string, id: string)
    requires IsStagingDirName(name) && ValidId(id)
    ensures name != id && name != BackupName(id) && BackupServiceId(name) == None
  {
    NamespacesAreDisjoint(id, id);
  }

  lemma SweepStaging(before: map<string, Node>, mid: map<string, Node>, now: map<string, Node>, rows: map<string, Version>,
                     todo: set<string>, torn: Node -> Node, name: string)
    requires SweptBut(before, mid, rows, todo) && IsStagingDirName(name)
    requires SameElsewhere(mid, now, {name})
    ensures name !in now ==> SweptBut(before, now, rows, todo - {name})
    ensures forall id :: ValidId(id) ==> Sweeping(SlotOf(before, rows, id), SlotOf(now, rows, id), torn)
  {
    forall id | ValidId(id)
      ensures SlotOf(now, rows, id) == SlotOf(mid, rows, id) == SlotBut(before, rows, todo - {name}, id)
      ensures Sweeping(SlotOf(before, rows, id), SlotOf(now, rows, id), torn)
    {
      StagingIsNoSlot(name, id);
      SlotElsewhere(mid, now, rows, id, name);
      RecoveredIsSweeping(SlotOf(before, rows, id), torn);
    }
    if name !in now {
      forall n | n in now && Marked(n) ensures n in todo - {name} {
        assert Get(mid, n) == Get(now, n);
      }
      forall n | !Marked(n) && !ValidId(n) ensures Get(now, n) == Get(before, n) {
        assert Get(mid, n) == Get(now, n);
      }
    }
  }

  lemma RecoveredIsSweeping(s: Slot, torn: Node -> Node)
    ensures Sweeping(s, Recovered(s), torn)
  {
    assert Recovered(s) == Recover(s, Cut(2, torn)).0;
  }

  lemma SweepMeets(before: map<string, Node>, now: map<string, Node>, rows: map<string, Version>, todo: set<string>, id: string)
    requires SweptBut(before, now, rows, todo) && ValidId(id) && BackupName(id) in todo
    ensures BackupName(id) in now && SlotOf(now, rows, id) == SlotOf(before, rows, id)
  {
    assert SlotOf(now, rows, id) == SlotBut(before, rows, todo, id);
    assert SlotOf(before, rows, id).backup.Some?;
  }

  lemma SweepBackup(before: map<string, Node>, mid: map<string, Node>, now: map<string, Node>, rows: map<string, Version>,
                    todo: set<string>, cut: Cut, id: string, alive: bool)
    requires SweptBut(before, mid, rows, todo) && ValidId(id) && BackupName(id) in todo
    requires SameElsewhere(mid, now, {id, BackupName(id)})
    requires (SlotOf(now, rows, id), alive) == Recover(SlotOf(mid, rows, id), cut)
    ensures alive ==> SweptBut(before, now, rows, todo - {BackupName(id)})
    ensures forall other :: ValidId(other) ==> Sweeping(SlotOf(before, rows, other), SlotOf(now, rows, other), cut.torn)
  {
    SweepMeets(before, mid, rows, todo, id);
    forall other | ValidId(other)
      ensures alive ==> SlotOf(now, rows, other) == SlotBut(before, rows, todo - {BackupName(id)}, other)
      ensures Sweeping(SlotOf(before, rows, other), SlotOf(now, rows, other), cut.torn)
    {
      OneSlotMoves(before, mid, now, rows, todo, cut, id, alive, other);
    }
    BackupNamesParse(BackupName(id), id);
    if alive {
      forall n | n in now && Marked(n) ensures n in todo - {BackupName(id)} {
        NamespacesAreDisjoint(id, id);
        assert n != id;
        assert SlotOf(now, rows, id).backup == None;
        assert Get(mid, n) == Get(now, n);
      }
      forall n | !Marked(n) && !ValidId(n) ensures Get(now, n) == Get(before, n) {
        assert Get(mid, n) == Get(now, n);
      }
    }
  }

  lemma OneSlotMoves(before: map<string, Node>, mid: map<string, Node>, now: map<string, Node>, rows: map<string, Version>,
                     todo: set<string>, cut: Cut, id: string, alive: bool, other: string)
    requires SweptBut(before, mid, rows, todo) && ValidId(id) && ValidId(other) && BackupName(id) in todo
    requires SlotOf(mid, rows, id) == SlotOf(before, rows, id)
    requires SameElsewhere(mid, now, {id, BackupName(id)})
    requires (SlotOf(now, rows, id), alive) == Recover(SlotOf(mid, rows, id), cut)
    ensures alive ==> SlotOf(now, rows, other) == SlotBut(before, rows, todo - {BackupName(id)}, other)
    ensures Sweeping(SlotOf(before, rows, other), SlotOf(now, rows, other), cut.torn)
  {
    hide BackupName, Recover, Recovered, SlotOf, ValidId;
    if other == id {
      RecoveryMoves(SlotOf(before, rows, id), cut);
    } else {
      OtherSlotStays(mid, now, rows, id, other);
      assert SlotOf(mid, rows, other) == SlotBut(before, rows, todo, other);
      RecoveredIsSweeping(SlotOf(before, rows, other), cut.torn);
      NamespacesAreDisjoint(id, other);
    }
  }

  lemma RecoveryMoves(s: Slot, cut: Cut)
    ensures Sweeping(s, Recover(s, cut).0, cut.torn) && (Recover(s, cut).1 ==> Recover(s, cut).0 == Recovered(s))
  {
    assert cut == Cut(cut.at, cut.torn);
  }

  lemma OtherSlotStays(mid: map<string, Node>, now: map<string, Node>, rows: map<string, Version>, id: string, other: string)
    requires ValidId(id) && ValidId(other) && id != other && SameElsewhere(mid, now, {id, BackupName(id)})
    ensures SlotOf(now, rows, other) == SlotOf(mid, rows, other)
  {
    hide BackupName, ValidId;
    NamespacesAreDisjoint(id, other);
    NamespacesAreDisjoint(other, id);
    assert Get(mid, other) == Get(now, other) && Get(mid, BackupName(other)) == Get(now, BackupName(other));
  }

  lemma SweepOther(before: map<string, Node>, now: map<string, Node>, rows: map<string, Version>, todo: set<string>, name: string)
    requires SweptBut(before, now, rows, todo) && !Marked(name)
    ensures SweptBut(before, now, rows, todo - {name})
  {
    forall id | ValidId(id) ensures SlotBut(before, rows, todo, id) == SlotBut(before, rows, todo - {name}, id) {
      BackupNamesParse(BackupName(id), id);
    }
  }

  lemma ReportGrows(before: map<string, Node>, rows: map<string, Version>, todo: set<string>,
                    restored: set<string>, discarded: set<string>, staging: set<string>, name: string)
    requires Reported(before, rows, todo, restored, discarded, staging) && name in todo && todo <= before.Keys
    ensures
      if IsStagingDirName(name) then Reported(before, rows, todo - {name}, restored, discarded, staging + {name})
      else match BackupServiceId(name)
        case None => Reported(before, rows, todo - {name}, restored, discarded, staging)
        case Some(id) =>
          if NeedsRollback(SlotOf(before, rows, id))
          then Reported(before, rows, todo - {name}, restored + {id}, discarded, staging)
          else Reported(before, rows, todo - {name}, restored, discarded + {id}, staging)
  {
    forall id | ValidId(id) ensures BackupName(id) == name <==> BackupServiceId(name) == Some(id) && !IsStagingDirName(name) {
      BackupNamesParse(name, id);
      NamespacesAreDisjoint(id, id);
    }
    forall id ensures Met(before, todo - {name}, id) <==> Met(before, todo, id) || (ValidId(id) && BackupName(id) == name) { }
    if BackupServiceId(name).Some? {
      BackupNamesParse(name, BackupServiceId(name).value);
    }
  }

  lemma SweepEnds(before: map<string, Node>, now: map<string, Node>, rows: map<string, Version>,
                  restored: set<string>, discarded: set<string>, staging: set<string>)
    requires SweptBut(before, now, rows, {}) && Reported(before, rows, {}, restored, discarded, staging)
    ensures Swept(before, now, rows)
    ensures forall n :: n in staging <==> n in before && IsStagingDirName(n)
    ensures forall id :: id in restored <==> ValidId(id) && BackupName(id) in before && NeedsRollback(SlotOf(before, rows, id))
    ensures forall id :: id in discarded <==> ValidId(id) && BackupName(id) in before && !NeedsRollback(SlotOf(before, rows, id))
    ensures forall torn, id :: ValidId(id) ==> Sweeping(SlotOf(before, rows, id), SlotOf(now, rows, id), torn)
  {
    forall torn, id | ValidId(id) ensures Sweeping(SlotOf(before, rows, id), SlotOf(now, rows, id), torn) {
      RecoveredIsSweeping(SlotOf(before, rows, id), torn);
      assert SlotOf(now, rows, id) == SlotBut(before, rows, {}, id);
    }
    forall id | ValidId(id) ensures SlotOf(now, rows, id) == Recovered(SlotOf(before, rows, id)) {
      assert SlotOf(now, rows, id) == SlotBut(before, rows, {}, id);
    }
    forall n | n in now ensures !IsStagingDirName(n) && BackupServiceId(n) == None {
      assert !Marked(n);
    }
    forall n | !IsStagingDirName(n) && BackupServiceId(n) == None && !ValidId(n) ensures Get(now, n) == Get(before, n) {
      assert !Marked(n);
    }
    forall id ensures Met(before, {}, id) <==> ValidId(id) && BackupName(id) in before { }
  }

  // ----- the reference walk ----------------------------------------------------

  function InnerLinks(entries: map<string, Node>): set<Key> {
    set name, key | name in entries && key in DirLinks(entries[name]) :: key
  }

  lemma InnerGrows(entries: map<string, Node>, todo: set<string>, name: string)
    requires name in todo && todo <= entries.Keys
    ensures InnerLinks(entries - (todo - {name})) == InnerLinks(entries - todo) + DirLinks(entries[name])
  {
    var rest := entries - (todo - {name});
    forall key | key in InnerLinks(rest) ensures key in InnerLinks(entries - todo) + DirLinks(entries[name]) {
      var n :| n in rest && key in DirLinks(rest[n]);
      assert n != name ==> n in entries - todo && key in DirLinks((entries - todo)[n]);
    }
    forall key | key in InnerLinks(entries - todo) + DirLinks(entries[name]) ensures key in InnerLinks(rest) {
      if key in DirLinks(entries[name]) {
        assert name in rest && key in DirLinks(rest[name]);
      } else {
        var n :| n in entries - todo && key in DirLinks((entries - todo)[n]);
        assert n in rest && key in DirLinks(rest[n]);
      }
    }
  }

  lemma ReferencedGrows(services: map<string, Node>, todo: set<string>, name: string)
    requires name in todo && todo <= services.Keys
    ensures Referenced(services - (todo - {name})) == Referenced(services - todo) + NodeLinks(services[name])
  {
    var rest := services - (todo - {name});
    forall key | key in Referenced(rest) ensures key in Referenced(services - todo) + NodeLinks(services[name]) {
      var n :| n in rest && key in NodeLinks(rest[n]);
      assert n != name ==> n in services - todo && key in NodeLinks((services - todo)[n]);
    }
    forall key | key in Referenced(services - todo) + NodeLinks(services[name]) ensures key in Referenced(rest) {
      if key in NodeLinks(services[name]) {
        assert name in rest && key in NodeLinks(rest[name]);
      } else {
        var n :| n in services - todo && key in NodeLinks((services - todo)[n]);
        assert n in rest && key in NodeLinks(rest[n]);
      }
    }
  }

  lemma SweepKeepsLinks(services: map<string, Node>, trees: map<Key, Tree>, order: seq<Key>, referenced: set<Key>,
                        now: int, minAge: int, cut: Cut)
    requires LinksOk(services, trees) && referenced == Referenced(services)
    ensures LinksOk(services, SweptTrees(trees, order, referenced, now, minAge, cut).0)
  {
    SweepSpares(trees, order, referenced, now, minAge, cut);
  }

  // ----- whole lives -----------------------------------------------------------

  lemma ReadLife(life: DaemonLife)
    requires LifeOk(life)
    ensures Tears(life.torn) && forall a :: a in life.acts ==> ActOk(a)
  {
  }

  lemma ActReads(act: Act)
    requires ActOk(act)
    ensures act.DoImport? ==> ValidId(act.id) && WellFormed(act.src)
    ensures act.DoImportRecursive? ==> DistinctIds(act.found) && WellFormed(act.src)
  {
  }

  lemma SettledIsSafe(services: map<string, Node>, rows: map<string, Version>)
    requires AllSettled(services, rows)
    ensures AllSafe(services, rows)
    ensures forall id :: ValidId(id) ==> Settled(SlotOf(services, rows, id))
  {
  }

  lemma RecoverySettles(before: map<string, Node>, after: map<string, Node>, rows: map<string, Version>, torn: Node -> Node, down: bool)
    requires AllSafe(before, rows)
    requires forall id :: ValidId(id) ==> Sweeping(SlotOf(before, rows, id), SlotOf(after, rows, id), torn)
    requires !down ==> Swept(before, after, rows)
    ensures AllSafe(after, rows) && (!down ==> AllSettled(after, rows))
  {
    hide ValidId, SlotOf, Safe, Recover, Recovered, Settled;
    forall id | ValidId(id)
      ensures Safe(SlotOf(after, rows, id)) && (!down ==> Settled(SlotOf(after, rows, id)))
    {
      SweepingIsSafe(SlotOf(before, rows, id), SlotOf(after, rows, id), torn);
    }
  }

  /** A sweep over a settled store, as the one before it leaves it, changes no entry. */
  lemma SecondSweepIsIdle(before: map<string, Node>, after: map<string, Node>, rows: map<string, Version>)
    requires AllSettled(before, rows) && Swept(before, after, rows)
    ensures after == before
  {
    forall n ensures Get(after, n) == Get(before, n) {
      if ValidId(n) {
        assert Settled(SlotOf(before, rows, n));
        assert SlotOf(after, rows, n) == Recovered(SlotOf(before, rows, n));
      } else if Marked(n) {
        assert n !in before && n !in after;
      }
    }
    forall n | n in after ensures n in before && after[n] == before[n] {
      assert Get(after, n) == Get(before, n);
    }
    forall n | n in before ensures n in after {
      assert Get(after, n) == Get(before, n);
    }
  }

  /** And a completed sweep settles a safe store, so two in a row do what one does. */
  lemma SweepTwice(before: map<string, Node>, once: map<string, Node>, twice: map<string, Node>, rows: map<string, Version>)
    requires AllSafe(before, rows) && Swept(before, once, rows) && Swept(once, twice, rows)
    ensures AllSettled(once, rows) && twice == once
  {
    var torn := (node: Node) => node;
    forall id | ValidId(id) ensures Sweeping(SlotOf(before, rows, id), SlotOf(once, rows, id), torn) {
      RecoveredIsSweeping(SlotOf(before, rows, id), torn);
    }
    hide AllSafe, Swept, AllSettled, Sweeping;
    RecoverySettles(before, once, rows, torn, false);
    SecondSweepIsIdle(once, twice, rows);
  }

  lemma SweepingIsSafe(s: Slot, t: Slot, torn: Node -> Node)
    requires Safe(s) && Sweeping(s, t, torn)
    ensures Safe(t) && (t == Recovered(s) ==> Settled(t))
  {
    RecoverIsSafe(s, Cut(2, torn));
    if t != s {
      var at: nat :| t == Recover(s, Cut(at, torn)).0;
      RecoverIsSafe(s, Cut(at, torn));
    }
  }

  lemma CommittedIsSafe(s: Slot, t: Slot, src: Source, stored: bool, torn: Node -> Node, alive: bool)
    requires Settled(s) && WellFormed(src) && Committed(s, t, src, stored, torn, alive)
    ensures Safe(t) && (alive ==> Settled(t))
  {
    var tree: Option<Key>, at: nat, done: bool :| CommittedAs(s, t, src, stored, tree, Cut(at, torn), done) && (alive ==> done);
    StagedMatches(src, tree);
    CommitIsSafe(s, StagedDir(src, tree), src.version, stored, Cut(at, torn));
  }

  lemma ImportSettles(before: map<string, Node>, after: map<string, Node>, rows: map<string, Version>, rows': map<string, Version>,
                      id: string, src: Source, stop: Stop, stored: bool, torn: Node -> Node, down: bool)
    requires AllSettled(before, rows) && ValidId(id) && WellFormed(src)
    requires SameElsewhere(before, after, {id, BackupName(id), StagingName(id)}) && SameElsewhere(rows, rows', {id})
    requires Imported(SlotOf(before, rows, id), SlotOf(after, rows', id), src, stored, torn, !down, stop == Never)
    requires !down ==> StagingName(id) !in after
    ensures AllSafe(after, rows') && (!down ==> AllSettled(after, rows'))
  {
    hide ValidId, WellFormed, StagingName, BackupName, Imported, IsStaging;
    StagingNames(id);
    CandidateSettles(before, after, rows, rows', id, StagingName(id), src, stored, torn, down, stop == Never);
    if !down {
      StagingGone(after, rows', StagingName(id));
    }
  }

  /** AllSettled, but for one staging tree. */
  ghost predicate SettledBut(services: map<string, Node>, rows: map<string, Version>, staging: string) {
    && (forall id :: ValidId(id) ==> Settled(SlotOf(services, rows, id)))
    && (forall n :: n in services && Marked(n) ==> n == staging)
  }

  lemma SettledButIsSafe(services: map<string, Node>, rows: map<string, Version>, staging: string)
    requires SettledBut(services, rows, staging)
    ensures AllSafe(services, rows)
  {
  }

  lemma RecursiveStaging()
    ensures ValidId("recursive-import") && IsStaging(StagingName("recursive-import")) && Marked(StagingName("recursive-import"))
  {
    StagingNames("recursive-import");
  }

  /** Work in the staging tree settles and unsettles nothing else. */
  lemma SettledElsewhere(before: map<string, Node>, after: map<string, Node>, rows: map<string, Version>, staging: string)
    requires AllSettled(before, rows) || SettledBut(before, rows, staging)
    requires SameElsewhere(before, after, {staging}) && IsStaging(staging)
    ensures SettledBut(after, rows, staging) && AllSafe(after, rows)
  {
    hide ValidId, Marked, Settled;
    forall id | ValidId(id) ensures SlotOf(after, rows, id) == SlotOf(before, rows, id) {
      NamesDiffer(id, staging);
      SlotElsewhere(before, after, rows, id, staging);
    }
    forall n | n in after && Marked(n) ensures n == staging {
      assert n != staging ==> Get(before, n) == Get(after, n);
    }
    SettledButIsSafe(after, rows, staging);
  }

  lemma StagingGone(services: map<string, Node>, rows: map<string, Version>, staging: string)
    requires SettledBut(services, rows, staging)
    ensures staging !in services ==> AllSettled(services, rows)
  {
  }

  lemma NothingPublished(trees: map<Key, Tree>, key: Key, now: int)
    ensures PublishedAtMost(trees, trees, key, now)
  {
  }

  lemma SameRows(rows: map<string, Version>, ids: set<string>)
    ensures SameElsewhere(rows, rows, ids)
  {
  }

  lemma CandidateReads(base: Source, found: seq<Candidate>, i: nat)
    requires WellFormed(base) && DistinctIds(found) && i < |found|
    ensures WellFormed(SourceOf(base, found[i])) && ValidId(found[i].id)
  {
  }

  /** The first n rows are written, and no row of another service. */
  ghost predicate RowsOf(before: map<string, Version>, after: map<string, Version>, base: Source, found: seq<Candidate>, n: int) {
    && DistinctIds(found) && 0 <= n <= |found|
    && SameElsewhere(before, after, set c | c in found :: c.id)
    && forall k :: 0 <= k < n ==> Get(after, found[k].id) == Some(SourceOf(base, found[k]).version)
  }

  /** The first n services hold their package and runtime. */
  ghost predicate DirsOf(services: map<string, Node>, trees: map<Key, Tree>, base: Source, found: seq<Candidate>, n: int) {
    && DistinctIds(found) && 0 <= n <= |found|
    && forall k :: 0 <= k < n ==> HoldsTrees(services, trees, found[k].id, SourceOf(base, found[k]))
  }

  lemma DirsBegin(services: map<string, Node>, trees: map<Key, Tree>, base: Source, found: seq<Candidate>)
    requires DistinctIds(found)
    ensures DirsOf(services, trees, base, found, 0)
  {
  }

  lemma DirsGrow(before: map<string, Node>, after: map<string, Node>, trees: map<Key, Tree>, base: Source, found: seq<Candidate>,
                 i: nat, staging: string)
    requires DirsOf(before, trees, base, found, i) && i < |found| && IsStaging(staging)
    requires SameElsewhere(before, after, {found[i].id, BackupName(found[i].id), staging})
    requires HoldsTrees(after, trees, found[i].id, SourceOf(base, found[i]))
    ensures DirsOf(after, trees, base, found, i + 1)
  {
    hide HoldsTrees, SourceOf, BackupName, ValidId;
    forall k | 0 <= k < i ensures HoldsTrees(after, trees, found[k].id, SourceOf(base, found[k])) {
      var id := found[k].id;
      NamespacesAreDisjoint(id, found[i].id);
      NamesDiffer(id, staging);
      assert Get(after, id) == Get(before, id);
      HoldsElsewhere(before, after, trees, id, SourceOf(base, found[k]));
    }
  }

  lemma DirsEnd(before: map<string, Node>, after: map<string, Node>, trees: map<Key, Tree>, base: Source, found: seq<Candidate>, staging: string)
    requires DirsOf(before, trees, base, found, |found|) && SameElsewhere(before, after, {staging}) && IsStaging(staging)
    ensures forall c :: c in found ==> HoldsTrees(after, trees, c.id, base)
  {
    hide HoldsTrees, ValidId;
    forall k | 0 <= k < |found| ensures HoldsTrees(after, trees, found[k].id, base) {
      NamesDiffer(found[k].id, staging);
      assert Get(after, found[k].id) == Get(before, found[k].id);
      HoldsElsewhere(before, after, trees, found[k].id, SourceOf(base, found[k]));
      SameHeldTrees(after, trees, found[k].id, base, found[k]);
    }
  }

  lemma SameRightTree(base: Source, c: Candidate, tree: Option<Key>, trees: map<Key, Tree>)
    ensures RightTree(SourceOf(base, c), tree, trees) <==> RightTree(base, tree, trees)
  {
  }

  lemma SameHeldTrees(services: map<string, Node>, trees: map<Key, Tree>, id: string, base: Source, c: Candidate)
    ensures HoldsTrees(services, trees, id, SourceOf(base, c)) <==> HoldsTrees(services, trees, id, base)
  {
  }

  lemma RowsBegin(rows: map<string, Version>, base: Source, found: seq<Candidate>)
    requires DistinctIds(found)
    ensures RowsOf(rows, rows, base, found, 0)
  {
  }

  lemma RowsGrow(before: map<string, Version>, mid: map<string, Version>, after: map<string, Version>,
                 base: Source, found: seq<Candidate>, i: nat, done: bool)
    requires RowsOf(before, mid, base, found, i) && i < |found| && SameElsewhere(mid, after, {found[i].id})
    requires done ==> Get(after, found[i].id) == Some(SourceOf(base, found[i]).version)
    ensures done ==> RowsOf(before, after, base, found, i + 1)
    ensures SameElsewhere(before, after, set c | c in found :: c.id)
  {
    hide ValidId, SourceOf;
    var ids := set c | c in found :: c.id;
    assert found[i] in found && found[i].id in ids;
    forall n | n !in ids ensures Get(before, n) == Get(after, n) {
      assert Get(mid, n) == Get(after, n);
    }
    forall k | 0 <= k < i ensures Get(after, found[k].id) == Get(mid, found[k].id) { }
  }

  lemma RowsEnd(before: map<string, Version>, after: map<string, Version>, base: Source, found: seq<Candidate>)
    requires RowsOf(before, after, base, found, |found|)
    ensures forall c :: c in found ==> Get(after, c.id) == Some(base.version.(descriptor := c.descriptor))
    ensures SameElsewhere(before, after, set c | c in found :: c.id)
  {
  }

  lemma CandidateSettles(before: map<string, Node>, after: map<string, Node>, rows: map<string, Version>, rows': map<string, Version>,
                         id: string, staging: string, src: Source, stored: bool, torn: Node -> Node, down: bool, whole: bool)
    requires SettledBut(before, rows, staging) && ValidId(id) && WellFormed(src) && IsStaging(staging)
    requires SameElsewhere(before, after, {id, BackupName(id), staging}) && SameElsewhere(rows, rows', {id})
    requires Imported(SlotOf(before, rows, id), SlotOf(after, rows', id), src, stored, torn, !down, whole)
    ensures AllSafe(after, rows') && (!down ==> SettledBut(after, rows', staging))
  {
    hide ValidId, Safe, Settled, Committed, WellFormed, BackupName, Marked, SlotOf;
    var s, t := SlotOf(before, rows, id), SlotOf(after, rows', id);
    SettledIsSlotSafe(s);
    if whole && (t != s || !down) {
      CommittedIsSafe(s, t, src, stored, torn, !down);
    }
    forall other | ValidId(other) && other != id
      ensures SlotOf(after, rows', other) == SlotOf(before, rows, other) && Safe(SlotOf(before, rows, other))
    {
      CandidateApart(before, after, rows, rows', id, other, staging);
      SettledIsSlotSafe(SlotOf(before, rows, other));
    }
    if !down {
      forall n | n in after && Marked(n) ensures n == staging {
        OnlyStagingMarked(before, after, rows', id, n, staging);
      }
    }
  }

  lemma SettledIsSlotSafe(s: Slot)
    ensures Settled(s) ==> Safe(s)
  {
  }

  lemma CandidateApart(before: map<string, Node>, after: map<string, Node>, rows: map<string, Version>, rows': map<string, Version>,
                       id: string, other: string, staging: string)
    requires ValidId(id) && ValidId(other) && id != other && IsStaging(staging)
    requires SameElsewhere(before, after, {id, BackupName(id), staging}) && SameElsewhere(rows, rows', {id})
    ensures SlotOf(after, rows', other) == SlotOf(before, rows, other)
  {
    hide ValidId, BackupName, IsStagingDirName;
    NamespacesAreDisjoint(id, other);
    NamespacesAreDisjoint(other, id);
    NamesDiffer(other, staging);
    assert Get(before, other) == Get(after, other) && Get(before, BackupName(other)) == Get(after, BackupName(other));
    assert Get(rows, other) == Get(rows', other);
  }

  lemma OnlyStagingMarked(before: map<string, Node>, after: map<string, Node>, rows': map<string, Version>, id: string, n: string, staging: string)
    requires ValidId(id) && SameElsewhere(before, after, {id, BackupName(id), staging})
    requires (forall m :: m in before && Marked(m) ==> m == staging) && Settled(SlotOf(after, rows', id)) && n in after && Marked(n)
    ensures n == staging
  {
    NamespacesAreDisjoint(id, id);
    assert n != BackupName(id) && n != id;
    assert n != staging ==> Get(before, n) == Get(after, n);
  }

  lemma PublishKeepsWhole(before: map<Key, Tree>, after: map<Key, Tree>, key: Key, now: int)
    requires PublishedAtMost(before, after, key, now)
    ensures Whole(before) ==> Whole(after)
  {
  }

  lemma FullSweepKeepsWhole(trees: map<Key, Tree>, order: seq<Key>, referenced: set<Key>, now: int, minAge: int, cut: Cut)
    ensures Whole(trees) && SweptTrees(trees, order, referenced, now, minAge, cut).1 ==>
              Whole(SweptTrees(trees, order, referenced, now, minAge, cut).0)
  {
    if SweptTrees(trees, order, referenced, now, minAge, cut).1 {
      SweepRemovesOrphans(trees, order, referenced, now, minAge, cut);
    }
  }
}
