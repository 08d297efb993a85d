/** The slice of the file system an import works on: names, directories, partial removal. */
module Files {
  import opened Domain

  const PREVIOUS_DIR_SUFFIX := ".previous"
  const STAGING_DIR_PREFIX := ".staging-"
  const DESCRIPTOR_FILE_NAME := "descriptor.protoset"

  function BackupName(id: string): string {
    "." + id + PREVIOUS_DIR_SUFFIX
  }

  function StagingName(id: string): string {
    STAGING_DIR_PREFIX + id
  }

  predicate HasPrefix(s: string, p: string) {
    |p| <= |s| && s[..|p|] == p
  }

  predicate HasSuffix(s: string, p: string) {
    |p| <= |s| && s[|s| - |p|..] == p
  }

  predicate IsStagingDirName(name: string) {
    HasPrefix(name, STAGING_DIR_PREFIX) && !HasSuffix(name, PREVIOUS_DIR_SUFFIX)
  }

  function BackupServiceId(name: string): Option<string> {
    if !HasSuffix(name, PREVIOUS_DIR_SUFFIX) then None
    else
      var trimmed := name[..|name| - |PREVIOUS_DIR_SUFFIX|];
      if !HasPrefix(trimmed, ".") || !ValidId(trimmed[1..]) then None else Some(trimmed[1..])
  }

  /** Backup names are parsed exactly, so no two services share one and nothing else is one. */
  lemma BackupNamesParse(name: string, id: string)
    ensures BackupServiceId(name) == Some(id) <==> ValidId(id) && name == BackupName(id)
  {
    if BackupServiceId(name) == Some(id) {
      assert name == name[..|name| - |PREVIOUS_DIR_SUFFIX|] + PREVIOUS_DIR_SUFFIX;
      var trimmed := name[..|name| - |PREVIOUS_DIR_SUFFIX|];
      assert trimmed == trimmed[..1] + trimmed[1..];
    }
    if name == BackupName(id) && ValidId(id) {
      assert name[|name| - |PREVIOUS_DIR_SUFFIX|..] == PREVIOUS_DIR_SUFFIX;
      assert name[..|name| - |PREVIOUS_DIR_SUFFIX|] == "." + id;
      assert ("." + id)[1..] == id;
    }
  }

  /** A valid id has no dot, so it ends with no suffix that has one. */
  lemma IdsHaveNoDot(id: string, k: nat)
    requires ValidId(id) && k < |id|
    ensures id[k] != '.'
  {
  }

  /**
   * The three namespaces under the services directory never meet, even though an id may
   * itself start with "staging-": a staging name is no backup, a backup name is no staging
   * name, and a service directory is neither.
   */
  lemma NamespacesAreDisjoint(id: string, other: string)
    requires ValidId(id) && ValidId(other)
    ensures IsStagingDirName(StagingName(id)) && !IsStagingDirName(BackupName(id)) && !IsStagingDirName(id)
    ensures BackupServiceId(StagingName(id)) == None && BackupServiceId(id) == None
    ensures id != BackupName(other) && id != StagingName(other) && StagingName(id) != BackupName(other)
    ensures BackupName(id) == BackupName(other) ==> id == other
    ensures StagingName(id) == StagingName(other) ==> id == other
  {
    var staging, backup := StagingName(id), BackupName(id);
    assert backup[|backup| - |PREVIOUS_DIR_SUFFIX|..] == PREVIOUS_DIR_SUFFIX;
    StagingIsNoBackup(id);
    BackupNamesParse(BackupName(other), other);
    BackupNamesParse(BackupName(id), id);
    if StagingName(id) == StagingName(other) {
      assert StagingName(id)[|STAGING_DIR_PREFIX|..] == id;
      assert StagingName(other)[|STAGING_DIR_PREFIX|..] == other;
    }
    if |id| >= |PREVIOUS_DIR_SUFFIX| {
      IdsHaveNoDot(id, |id| - |PREVIOUS_DIR_SUFFIX|);
      assert id[|id| - |PREVIOUS_DIR_SUFFIX|..][0] != '.';
    }
    assert id[0] != '.' && BackupName(other)[0] == '.' && StagingName(other)[0] == '.';
  }

  lemma StagingIsNoBackup(id: string)
    requires ValidId(id)
    ensures !HasSuffix(StagingName(id), PREVIOUS_DIR_SUFFIX)
  {
    var staging := StagingName(id);
    var at := |staging| - |PREVIOUS_DIR_SUFFIX|;
    if at >= |STAGING_DIR_PREFIX| {
      IdsHaveNoDot(id, at - |STAGING_DIR_PREFIX|);
      assert staging[at] == id[at - |STAGING_DIR_PREFIX|];
    }
    assert 0 < at ==> staging[at] != '.';
    assert 0 <= at ==> staging[at..][0] == staging[at] && staging[at..][1] == staging[at + 1];
  }

  // ----- directories -----------------------------------------------------------

  /**
   * What a shared runtime tree is addressed by. Every input of the key is a field, and
   * SHA-256 is taken to be injective, so the key stands for its own digest; `artifact` and
   * `modules` are the package's and the carried node_modules' whole contents.
   */
  datatype Key = Key(artifact: string, modules: string, offline: bool)

  datatype Node = File(content: string) | Link(target: Key) | Dir(entries: map<string, Node>)

  datatype Tree = Tree(node: Node, modified: int)

  /** The tree a key names, with one entry for each of the two contents that make it up. */
  function TreeOf(key: Key): Node {
    Dir(map["package.json" := File(key.artifact), "node_modules" := Dir(map["content" := File(key.modules)])])
  }

  /** b is what an interrupted RemoveAll of the directory a may leave: entries gone, at any
      depth, and nothing else changed. */
  predicate Pruned(a: Node, b: Node) {
    && a.Dir? && b.Dir?
    && forall k :: k in b.entries ==> k in a.entries && (b.entries[k] == a.entries[k] || Pruned(a.entries[k], b.entries[k]))
  }

  function LinkAt(dir: Node, name: string): set<Key> {
    if dir.Dir? && name in dir.entries && dir.entries[name].Link? then {dir.entries[name].target} else {}
  }

  /** The trees a directory's own package and runtime entries point at. */
  function DirLinks(dir: Node): set<Key> {
    LinkAt(dir, "package") + LinkAt(dir, "runtime")
  }

  /** The same, and those of the directories just inside it. */
  function NodeLinks(dir: Node): set<Key> {
    if !dir.Dir? then {}
    else DirLinks(dir) + set name, key | name in dir.entries && key in DirLinks(dir.entries[name]) :: key
  }

  function Referenced(services: map<string, Node>): set<Key> {
    set name, key | name in services && key in NodeLinks(services[name]) :: key
  }

  /** Which trees count as referenced: the targets of the package and runtime links of a
      directory under services, or of a directory in one. */
  lemma ReferencedReads(services: map<string, Node>, key: Key)
    ensures key in Referenced(services) <==> exists name :: name in services && LeadsTo(services[name], key)
  {
    forall name | name in services ensures key in NodeLinks(services[name]) <==> LeadsTo(services[name], key) {
      NodeLinksRead(services[name], key);
    }
  }

  ghost predicate LeadsTo(dir: Node, key: Key) {
    dir.Dir? && (LinksTo(dir, key) || exists inner :: inner in dir.entries && LinksTo(dir.entries[inner], key))
  }

  lemma NodeLinksRead(dir: Node, key: Key)
    ensures key in NodeLinks(dir) <==> LeadsTo(dir, key)
  {
    if dir.Dir? {
      assert key in DirLinks(dir) <==> LinksTo(dir, key);
      forall inner | inner in dir.entries ensures key in DirLinks(dir.entries[inner]) <==> LinksTo(dir.entries[inner], key) { }
    }
  }

  predicate LinksTo(dir: Node, key: Key) {
    dir.Dir? && (("package" in dir.entries && dir.entries["package"] == Link(key))
                 || ("runtime" in dir.entries && dir.entries["runtime"] == Link(key)))
  }

  predicate LinkFree(node: Node) {
    match node
    case File(_) => true
    case Link(_) => false
    case Dir(entries) => forall k :: k in entries ==> LinkFree(entries[k])
  }

  lemma PrunedDirLinks(a: Node, b: Node)
    requires Pruned(a, b)
    ensures DirLinks(b) <= DirLinks(a)
  {
  }

  /** An interrupted removal adds no reference. */
  lemma PrunedLinks(a: Node, b: Node)
    requires Pruned(a, b)
    ensures NodeLinks(b) <= NodeLinks(a)
  {
    PrunedDirLinks(a, b);
    forall name, key | name in b.entries && key in DirLinks(b.entries[name]) ensures key in NodeLinks(a) {
      if b.entries[name] != a.entries[name] {
        PrunedDirLinks(a.entries[name], b.entries[name]);
      }
      assert key in DirLinks(a.entries[name]);
    }
  }

  lemma LinkFreeLinks(node: Node)
    requires LinkFree(node)
    ensures NodeLinks(node) == {}
  {
  }

  lemma ReferencedAfter(services: map<string, Node>, name: string, node: Node)
    ensures Referenced(services[name := node]) <= Referenced(services) + NodeLinks(node)
  {
    forall k | k in Referenced(services[name := node]) ensures k in Referenced(services) + NodeLinks(node) {
      var n :| n in services[name := node] && k in NodeLinks(services[name := node][n]);
      assert n != name ==> n in services && k in NodeLinks(services[n]);
    }
  }

  lemma ReferencedWithout(services: map<string, Node>, gone: set<string>)
    ensures Referenced(services - gone) <= Referenced(services)
  {
    forall k | k in Referenced(services - gone) ensures k in Referenced(services) {
      var n :| n in services - gone && k in NodeLinks((services - gone)[n]);
      assert n in services && k in NodeLinks(services[n]);
    }
  }
}
