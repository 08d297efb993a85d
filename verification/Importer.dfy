/**
 * Imports, crash recovery and tree collection over one data directory
 * (internal/packageimport). Everything runs under the import lock, so one call at a time;
 * the daemon may die at any file operation, when `budget` runs out.
 */
module Importer {
  import opened Domain
  import opened Files
  import opened Commit
  import opened Trees
  import opened ImportState

  class Importer {
    /** artifacts/services, artifacts/runtimes and the service rows. */
    var services: map<string, Node>
    var trees: map<Key, Tree>
    var rows: map<string, Version>
    /** File operations left before the daemon dies, and what death leaves of a directory
        that is being removed or copied. */
    var budget: nat
    var torn: Node -> Node
    var down: bool

    ghost predicate Valid() reads this {
      OnlyDirs(services) && Tears(torn) && LinksOk(services, trees)
    }

    constructor (budget: nat, torn: Node -> Node)
      requires Tears(torn)
      ensures Valid() && services == map[] && trees == map[] && rows == map[] && !down
      ensures this.budget == budget && this.torn == torn
    {
      services, trees, rows := map[], map[], map[];
      this.budget, this.torn, down := budget, torn, false;
    }

    // ----- file operations -------------------------------------------------------

    method Spend() returns (alive: bool)
      requires !down
      modifies this`budget, this`down
      ensures down == !alive && alive == (old(budget) > 0)
      ensures budget == if alive then old(budget) - 1 else 0
    {
      alive := budget > 0;
      if alive {
        budget := budget - 1;
      } else {
        down := true;
      }
    }

    /** A removal that is cut off leaves a part of the directory. */
    method RemoveAll(name: string) returns (alive: bool)
      requires !down && Valid()
      modifies this`budget, this`down, this`services
      ensures Valid() && down == !alive && alive == (old(budget) > 0)
      ensures budget == if alive then old(budget) - 1 else 0
      ensures services == if alive then old(services) - {name}
                          else if name in old(services) then old(services)[name := torn(old(services)[name])]
                          else old(services)
    {
      hide LinksOk, OnlyDirs, Tears;
      alive := Spend();
      if alive {
        RemoveKeepsLinks(services, trees, name);
        services := services - {name};
      } else if name in services {
        TearKeepsLinks(services, trees, name, torn);
        services := services[name := torn(services[name])];
      }
    }

    method Rename(from: string, to: string) returns (alive: bool)
      requires !down && Valid() && from in services && from != to && to !in services
      modifies this`budget, this`down, this`services
      ensures Valid() && down == !alive && alive == (old(budget) > 0)
      ensures budget == if alive then old(budget) - 1 else 0
      ensures services == if alive then (old(services) - {from})[to := old(services)[from]] else old(services)
    {
      hide LinksOk, OnlyDirs, Tears;
      alive := Spend();
      if alive {
        MoveKeepsLinks(services, trees, from, to);
        services := (services - {from})[to := services[from]];
      }
    }

    // ----- committing ------------------------------------------------------------

    /** Swap the staged dir in through the backup. On a crash the caller is gone. */
    method ReplaceServiceDir(id: string, staging: string) returns (alive: bool, hadPrevious: bool)
      requires !down && Valid() && ValidId(id) && IsStaging(staging) && HoldsStaged(services, staging)
      modifies this`budget, this`down, this`services
      ensures Valid() && down == !alive
      ensures SameElsewhere(old(services), services, {id, BackupName(id), staging})
      ensures staging in services
      ensures var s, cut, staged := old(SlotOf(services, rows, id)), Cut(old(budget), torn), StagedAt(old(services), staging);
        && alive == (old(budget) >= 3) && (alive ==> budget == old(budget) - 3)
        && SlotOf(services, rows, id) == if alive then Slot(Some(staged), s.live, s.row)
                                         else CommitImported(s, staged, Version("", "", ""), true, cut).0
      ensures hadPrevious == (id in old(services)) || !alive
      ensures alive ==> services[staging] == Dir(old(services)[staging].entries - {"service"})
    {
      hide LinksOk, OnlyDirs, Tears, NodeLinks, DirLinks, BackupName;
      NamesDiffer(id, staging);
      hadPrevious := false;
      alive := RemoveAll(BackupName(id));
      if !alive {
        return;
      }
      hadPrevious := id in services;
      if hadPrevious {
        alive := Rename(id, BackupName(id));
      } else {
        alive := Spend();
      }
      if !alive {
        return;
      }
      alive := InstallStaged(id, staging);
    }

    /** Rename the prepared dir into place. */
    method InstallStaged(id: string, staging: string) returns (alive: bool)
      requires !down && Valid() && id !in services && id != staging && HoldsStaged(services, staging)
      modifies this`budget, this`down, this`services
      ensures Valid() && down == !alive && alive == (old(budget) > 0)
      ensures budget == if alive then old(budget) - 1 else 0
      ensures services == if alive then Installed(old(services), id, staging) else old(services)
    {
      hide LinksOk, OnlyDirs, Tears, NodeLinks, DirLinks, Installed;
      alive := Spend();
      if alive {
        InstallKeepsLinks(services, trees, id, staging);
        services := Installed(services, id, staging);
      }
    }

    method Rollback(id: string, hadPrevious: bool) returns (alive: bool)
      requires !down && Valid() && ValidId(id) && id in services && hadPrevious == (BackupName(id) in services)
      modifies this`budget, this`down, this`services
      ensures Valid() && down == !alive
      ensures SameElsewhere(old(services), services, {id, BackupName(id)})
      ensures var s := old(SlotOf(services, rows, id));
        && (old(budget) == 0 ==> !alive && SlotOf(services, rows, id) == s.(live := Tear(s.live, Cut(0, torn))))
        && (old(budget) == 1 && hadPrevious ==> !alive && SlotOf(services, rows, id) == s.(live := None))
        && (old(budget) >= 1 && (old(budget) > 1 || !hadPrevious) ==>
              alive && SlotOf(services, rows, id) == s.(live := s.backup, backup := None))
    {
      hide LinksOk, OnlyDirs, Tears, BackupName;
      NamespacesAreDisjoint(id, id);
      alive := RemoveAll(id);
      if !alive {
        return;
      }
      if hadPrevious {
        alive := Rename(BackupName(id), id);
      }
    }

    /** Swap, write the row, and clean up - or put the old version back when the row write
        fails, in which case the import reports that failure. */
    method CommitImportedService(id: string, svc: Version, staging: string, stored: bool) returns (ok: bool)
      requires !down && Valid() && ValidId(id) && IsStaging(staging) && HoldsStaged(services, staging)
      modifies this`budget, this`down, this`services, this`rows
      ensures Valid() && staging in services && ok == (!down && stored)
      ensures SameElsewhere(old(services), services, {id, BackupName(id), staging})
      ensures SameElsewhere(old(rows), rows, {id})
      ensures (SlotOf(services, rows, id), !down) ==
              CommitImported(old(SlotOf(services, rows, id)), StagedAt(old(services), staging), svc, stored, Cut(old(budget), torn))
    {
      hide LinksOk, OnlyDirs, Tears, NodeLinks, DirLinks, BackupName;
      NamesDiffer(id, staging);
      var alive, hadPrevious := ReplaceServiceDir(id, staging);
      if !alive {
        return false;
      }
      alive := Spend();
      if !alive {
        return false;
      }
      if !stored {
        ghost var swapped := services;
        alive := Rollback(id, hadPrevious);
        assert Get(swapped, staging) == Get(services, staging);
        return false;
      }
      rows := rows[id := svc];
      ok := RemoveAll(BackupName(id));
    }

    // ----- building in the staging tree ------------------------------------------

    /** Create or replace one entry of the staging tree; part is what a crash leaves of it. */
    method PutEntry(staging: string, name: string, node: Node, part: Option<Node>) returns (alive: bool)
      requires !down && Valid() && staging in services
      requires Reach(node) <= trees.Keys && (part.Some? ==> Reach(part.value) <= trees.Keys)
      modifies this`budget, this`down, this`services
      ensures Valid() && down == !alive && alive == (old(budget) > 0)
      ensures budget == if alive then old(budget) - 1 else 0
      ensures services == if alive then WithEntry(old(services), staging, name, node)
                          else if part.Some? then WithEntry(old(services), staging, name, part.value)
                          else old(services)
    {
      assert services[staging].Dir?;
      hide LinksOk, OnlyDirs, Tears, Reach, WithEntry;
      alive := Spend();
      if alive {
        PutKeepsLinks(services, trees, staging, name, node);
        services := WithEntry(services, staging, name, node);
      } else if part.Some? {
        PutKeepsLinks(services, trees, staging, name, part.value);
        services := WithEntry(services, staging, name, part.value);
      }
    }

    /** Copy or link one entry into the commit dir of the staging tree. */
    method PutInCommit(staging: string, name: string, node: Node) returns (alive: bool)
      requires !down && Valid() && HasCommitDir(services, staging)
      requires node.Link? ==> node.target in trees
      requires node.Dir? ==> LinkFree(node)
      modifies this`budget, this`down, this`services
      ensures Valid() && down == !alive && HasCommitDir(services, staging)
      ensures SameElsewhere(old(services), services, {staging})
      ensures alive ==> CommitEntries(services, staging) == CommitEntries(old(services), staging)[name := node]
    {
      var dir := services[staging].entries["service"];
      var part := if node.Dir? then Some(Dir(dir.entries[name := torn(node)])) else None;
      CommitReach(services, trees, staging, name, node);
      if node.Dir? {
        CommitReach(services, trees, staging, name, torn(node));
      }
      hide LinksOk, OnlyDirs, Tears, Reach, Referenced;
      alive := PutEntry(staging, "service", Dir(dir.entries[name := node]), part);
    }

    /** The package and runtime entries: both link the shared tree, or both are copies. */
    method PutTrees(staging: string, src: Source, tree: Option<Key>) returns (alive: bool)
      requires !down && Valid() && HasCommitDir(services, staging)
      requires WellFormed(src) && (tree.Some? ==> tree.value in trees)
      modifies this`budget, this`down, this`services
      ensures Valid() && down == !alive && HasCommitDir(services, staging)
      ensures SameElsewhere(old(services), services, {staging})
      ensures alive ==> (CommitEntries(services, staging) ==
                         CommitEntries(old(services), staging)["package" := LinkOrCopy(tree, src.package)]
                                                              ["runtime" := LinkOrCopy(tree, src.runtime)])
    {
      assert LinkFree(Dir(src.package)) && LinkFree(Dir(src.runtime));
      hide LinksOk, OnlyDirs, Tears, LinkFree, WellFormed;
      alive := PutInCommit(staging, "package", LinkOrCopy(tree, src.package));
      if !alive { return; }
      alive := PutInCommit(staging, "runtime", LinkOrCopy(tree, src.runtime));
    }

    method OpenCommitDir(staging: string) returns (alive: bool)
      requires !down && Valid() && staging in services
      modifies this`budget, this`down, this`services
      ensures Valid() && down == !alive && staging in services
      ensures SameElsewhere(old(services), services, {staging})
      ensures alive ==> HasCommitDir(services, staging) && CommitEntries(services, staging) == map[]
    {
      assert services[staging].Dir?;
      hide LinksOk, OnlyDirs, Tears;
      alive := PutEntry(staging, "service", Dir(map[]), None);
    }

    /** The service directory, entry by entry. */
    method StageServiceCommit(staging: string, src: Source, tree: Option<Key>) returns (alive: bool)
      requires !down && Valid() && staging in services && WellFormed(src) && (tree.Some? ==> tree.value in trees)
      modifies this`budget, this`down, this`services
      ensures Valid() && down == !alive && staging in services
      ensures SameElsewhere(old(services), services, {staging})
      ensures alive ==> HoldsStaged(services, staging) && StagedAt(services, staging) == StagedDir(src, tree)
    {
      hide LinksOk, OnlyDirs, Tears, LinkFree, StagedDir, WellFormed, LinkOrCopy, NodeLinks, DirLinks, Matches;
      StagedMatches(src, tree);
      StagedInOrder(src, tree);
      alive := OpenCommitDir(staging);
      if !alive { return; }
      alive := PutInCommit(staging, src.version.artifactName, File(src.version.artifact));
      if !alive { return; }
      alive := PutTrees(staging, src, tree);
      if !alive { return; }
      alive := PutInCommit(staging, DESCRIPTOR_FILE_NAME, File(src.version.descriptor));
      if !alive { return; }
      assert services[staging].entries["service"] == StagedDir(src, tree);
    }

    // ----- the runtime tree ------------------------------------------------------

    method ExistingSharedTree(key: Key) returns (found: bool)
      ensures found == (key in trees)
    {
      found := key in trees;
    }

    /** Move a built tree into the store with one rename, or drop it if one is there. */
    method PublishSharedTree(staging: string, key: Key, now: int) returns (alive: bool)
      requires !down && Valid() && staging in services
      requires "runtime-shared" in services[staging].entries && services[staging].entries["runtime-shared"] == TreeOf(key)
      modifies this`budget, this`down, this`services, this`trees
      ensures Valid() && down == !alive && staging in services
      ensures SameElsewhere(old(services), services, {staging})
      ensures alive ==> key in trees
      ensures PublishedAtMost(old(trees), trees, key, now)
    {
      hide LinksOk, OnlyDirs, Tears, Pruned;
      alive := Spend();
      assert services[staging].Dir? by {
        OnlyDirsHere(services, staging);
      }
      var dir := services[staging];
      if alive {
        DropKeepsLinks(services, trees, staging, "runtime-shared");
        services := services[staging := Dir(dir.entries - {"runtime-shared"})];
        if key !in trees {
          MoreTreesKeepLinks(services, trees, key, Tree(TreeOf(key), now));
          trees := trees[key := Tree(TreeOf(key), now)];
        }
      } else if key in trees {
        PartKeepsLinks(services, trees, staging, "runtime-shared", torn);
        services := services[staging := Dir(dir.entries["runtime-shared" := torn(dir.entries["runtime-shared"])])];
      }
    }

    /** Reuse, or build and publish, the tree the package's key names; a package that cannot
        share builds its own in staging. */
    method PrepareServiceRuntime(staging: string, src: Source, now: int) returns (alive: bool, tree: Option<Key>)
      requires !down && Valid() && staging in services && WellFormed(src)
      modifies this`budget, this`down, this`services, this`trees
      ensures Valid() && down == !alive && staging in services
      ensures SameElsewhere(old(services), services, {staging})
      ensures alive ==> tree == if src.shareable then Some(KeyOf(src)) else None
      ensures alive ==> RightTree(src, tree, trees)
      ensures alive && tree.Some? ==> tree.value in trees
      ensures PublishedAtMost(old(trees), trees, KeyOf(src), now)
    {
      tree := None;
      if !src.shareable {
        alive := CopyInto(staging, "runtime", Dir(src.runtime));
        return;
      }
      var key := KeyOf(src);
      var found := ExistingSharedTree(key);
      if found {
        return true, Some(key);
      }
      TreeOfIsLinkFree(key);
      alive := CopyInto(staging, "runtime-shared", TreeOf(key));
      if !alive {
        return;
      }
      alive := PublishSharedTree(staging, key, now);
      tree := Some(key);
    }

    /** Copy a link-free directory into the staging tree; a crash leaves part of it. */
    method CopyInto(staging: string, name: string, node: Node) returns (alive: bool)
      requires !down && Valid() && staging in services && node.Dir? && LinkFree(node)
      modifies this`budget, this`down, this`services
      ensures Valid() && down == !alive && staging in services
      ensures SameElsewhere(old(services), services, {staging})
      ensures alive ==> name in services[staging].entries && services[staging].entries[name] == node
    {
      assert Pruned(node, torn(node));
      LinkFreeInside(node);
      PrunedDirLinks(node, torn(node));
      assert services[staging].Dir?;
      hide LinksOk, OnlyDirs, Tears, LinkFree, Pruned, DirLinks;
      alive := PutEntry(staging, name, node, Some(torn(node)));
    }

    // ----- imports ---------------------------------------------------------------

    /** A fresh staging tree with the prepared source in it. */
    method OpenStaging(staging: string, src: Source) returns (alive: bool)
      requires !down && Valid() && WellFormed(src)
      modifies this`budget, this`down, this`services
      ensures Valid() && down == !alive
      ensures SameElsewhere(old(services), services, {staging})
      ensures alive ==> staging in services
    {
      alive := RemoveAll(staging);
      if !alive {
        return;
      }
      alive := Spend();
      if !alive {
        return;
      }
      LinkFreeLinks(Dir(map[]));
      ReferencedAfter(services, staging, Dir(map[]));
      services := services[staging := Dir(map[])];
      alive := CopyInto(staging, "source", Dir(src.scratch));
    }

    /** Everything before the commit; ready means a finished service dir waits in staging. */
    method BuildAndStage(staging: string, src: Source, stop: Stop, now: int) returns (ready: bool, tree: Option<Key>)
      requires !down && Valid() && WellFormed(src)
      modifies this`budget, this`down, this`services, this`trees
      ensures Valid() && SameElsewhere(old(services), services, {staging})
      ensures PublishedAtMost(old(trees), trees, KeyOf(src), now)
      ensures ready ==> RightTree(src, tree, trees)
      ensures ready ==> !down && stop == Never && HoldsStaged(services, staging) && StagedAt(services, staging) == StagedDir(src, tree)
      ensures !ready ==> down || stop != Never
    {
      hide LinksOk, OnlyDirs, Tears, WellFormed;
      ready, tree := false, None;
      var alive := OpenStaging(staging, src);
      if !alive || stop == AfterSource {
        return;
      }
      alive, tree := PrepareServiceRuntime(staging, src, now);
      if !alive || stop == AfterRuntime {
        return;
      }
      alive := StageServiceCommit(staging, src, tree);
      ready := alive && stop == Never;
    }

    /** One import, from the lock to the deferred removal of its staging tree. */
    method Import(id: string, src: Source, stop: Stop, stored: bool, now: int) returns (ok: bool)
      requires !down && Valid() && ValidId(id) && WellFormed(src)
      modifies this`budget, this`down, this`services, this`rows, this`trees
      ensures Valid() && (ok ==> stop == Never && stored && Get(rows, id) == Some(src.version))
      ensures ok ==> HoldsTrees(services, trees, id, src)
      ensures SameElsewhere(old(services), services, {id, BackupName(id), StagingName(id)})
      ensures SameElsewhere(old(rows), rows, {id})
      ensures PublishedAtMost(old(trees), trees, KeyOf(src), now)
      ensures !down ==> StagingName(id) !in services && ok == (stop == Never && stored)
      ensures Imported(old(SlotOf(services, rows, id)), SlotOf(services, rows, id), src, stored, torn, !down, stop == Never)
    {
      hide LinksOk, OnlyDirs, Tears, BackupName, StagingName, WellFormed, HoldsStaged;
      ok := false;
      StagingNames(id);
      var staging := StagingName(id);
      ghost var s := SlotOf(services, rows, id);
      var ready, tree := BuildAndStage(staging, src, stop, now);
      SlotElsewhere(old(services), services, rows, id, staging);
      if down {
        return;
      }
      ghost var cut := Cut(budget, torn);
      if ready {
        ok := CommitImportedService(id, src.version, staging, stored);
        assert CommittedAs(s, SlotOf(services, rows, id), src, stored, tree, cut, !down);
        if down {
          return;
        }
      }
      ghost var committed := services;
      var _ := RemoveAll(staging);
      OneNameMoved(committed, services, staging);
      SlotElsewhere(committed, services, rows, id, staging);
      if ok {
        CommittedHolds(s, SlotOf(services, rows, id), src, tree, cut);
        StagedHoldsTrees(services, trees, id, src, tree);
      }
    }

    // ----- crash recovery --------------------------------------------------------

    /** The read of the live dir and the row that decides which way an interrupted commit goes. */
    method InterruptedCommitNeedsRollback(id: string) returns (rollback: bool)
      ensures rollback == NeedsRollback(SlotOf(services, rows, id))
    {
      if id !in services || id !in rows {
        return true;
      }
      var dir, stored := services[id], rows[id];
      if !dir.Dir? || DESCRIPTOR_FILE_NAME !in dir.entries || dir.entries[DESCRIPTOR_FILE_NAME] != File(stored.descriptor) {
        return true;
      }
      if stored.artifactName !in dir.entries {
        return true;
      }
      rollback := dir.entries[stored.artifactName] != File(stored.artifact);
    }

    /** The sweep's work on one backup. */
    method RecoverServiceDir(id: string) returns (alive: bool, restored: bool)
      requires !down && Valid() && ValidId(id) && BackupName(id) in services
      modifies this`budget, this`down, this`services
      ensures Valid() && alive == !down && restored == NeedsRollback(old(SlotOf(services, rows, id)))
      ensures SameElsewhere(old(services), services, {id, BackupName(id)})
      ensures (SlotOf(services, rows, id), alive) == Recover(old(SlotOf(services, rows, id)), Cut(old(budget), torn))
    {
      hide LinksOk, OnlyDirs, Tears, BackupName;
      NamespacesAreDisjoint(id, id);
      restored := InterruptedCommitNeedsRollback(id);
      if restored {
        alive := RemoveAll(id);
        if !alive {
          return;
        }
        alive := Rename(BackupName(id), id);
      } else {
        alive := RemoveAll(BackupName(id));
      }
    }

    /**
     * The startup sweep. When it completes, every service is as Recovered leaves it, no
     * staging tree and no backup is left, nothing else moved, and the report is exact. When
     * it is cut, each service is untouched, recovered, or cut on the way.
     */
    method RecoverServiceDirs() returns (restored: set<string>, discarded: set<string>, staging: set<string>)
      requires !down && Valid()
      modifies this`budget, this`down, this`services
      ensures Valid()
      ensures forall id :: ValidId(id) ==> Sweeping(old(SlotOf(services, rows, id)), SlotOf(services, rows, id), torn)
      ensures !down ==> Swept(old(services), services, rows)
      ensures !down && AllSettled(old(services), rows) ==> services == old(services)
      ensures !down ==> forall n :: n in staging <==> n in old(services) && IsStagingDirName(n)
      ensures !down ==> forall id :: id in restored <==>
                ValidId(id) && BackupName(id) in old(services) && NeedsRollback(old(SlotOf(services, rows, id)))
      ensures !down ==> forall id :: id in discarded <==>
                ValidId(id) && BackupName(id) in old(services) && !NeedsRollback(old(SlotOf(services, rows, id)))
    {
      hide *;
      restored, discarded, staging := {}, {}, {};
      var todo := services.Keys;
      ghost var before := services;
      SweepBegins(before, rows);
      while todo != {}
        invariant !down && Valid() && todo <= before.Keys
        invariant SweptBut(before, services, rows, todo) && Reported(before, rows, todo, restored, discarded, staging)
        decreases |todo|
      {
        var name :| name in todo;
        ghost var mid := services;
        ReportGrows(before, rows, todo, restored, discarded, staging, name);
        if IsStagingDirName(name) {
          var alive := RemoveAll(name);
          OneNameMoved(mid, services, name);
          SweepStaging(before, mid, services, rows, todo, torn, name);
          if !alive {
            return;
          }
          staging := staging + {name};
        } else {
          var id := BackupServiceId(name);
          if id.Some? {
            BackupNamesParse(name, id.value);
            SweepMeets(before, services, rows, todo, id.value);
            ghost var cut := Cut(budget, torn);
            var alive, back := RecoverServiceDir(id.value);
            SweepBackup(before, mid, services, rows, todo, cut, id.value, alive);
            if !alive {
              return;
            }
            if back {
              restored := restored + {id.value};
            } else {
              discarded := discarded + {id.value};
            }
          } else {
            Unmarked(name);
            SweepOther(before, services, rows, todo, name);
          }
        }
        todo := todo - {name};
      }
      SweepEnds(before, services, rows, restored, discarded, staging);
      if AllSettled(before, rows) {
        SecondSweepIsIdle(before, services, rows);
      }
    }

    // ----- collecting trees ------------------------------------------------------

    /** The walk over the services directory, two levels deep. */
    method ReferencedSharedTrees() returns (referenced: set<Key>)
      ensures referenced == Referenced(services)
    {
      referenced := {};
      var todo := services.Keys;
      while todo != {}
        invariant todo <= services.Keys
        invariant referenced == Referenced(services - todo)
        decreases |todo|
      {
        var name :| name in todo;
        var links := LinksOf(services[name]);
        ReferencedGrows(services, todo, name);
        referenced, todo := referenced + links, todo - {name};
      }
      assert services - {} == services;
    }

    method LinksOf(dir: Node) returns (links: set<Key>)
      ensures links == NodeLinks(dir)
    {
      links := {};
      if !dir.Dir? {
        return;
      }
      links := DirLinks(dir);
      var todo := dir.entries.Keys;
      while todo != {}
        invariant todo <= dir.entries.Keys
        invariant links == DirLinks(dir) + InnerLinks(dir.entries - todo)
        decreases |todo|
      {
        var name :| name in todo;
        InnerGrows(dir.entries, todo, name);
        links, todo := links + DirLinks(dir.entries[name]), todo - {name};
      }
      assert dir.entries - {} == dir.entries;
    }

    /**
     * The startup collection, over the store's entries in the order they are listed. Cut or
     * not, no tree a service directory, a backup or a staging tree links to is touched.
     */
    method SweepOrphanedTrees(order: seq<Key>, now: int, minAge: int) returns (removed: set<Key>)
      requires !down && Valid()
      modifies this`budget, this`down, this`trees
      ensures Valid()
      ensures (trees, !down) == SweptTrees(old(trees), order, Referenced(services), now, minAge, Cut(old(budget), torn))
      ensures removed == old(trees).Keys - trees.Keys
    {
      hide LinksOk, OnlyDirs, Tears, Orphan, Referenced, Stump;
      removed := {};
      var referenced := ReferencedSharedTrees();
      SweepSpares(trees, order, referenced, now, minAge, Cut(budget, torn));
      SweepKeepsLinks(services, trees, order, referenced, now, minAge, Cut(budget, torn));
      var i := 0;
      while i < |order|
        invariant 0 <= i <= |order| && !down
        invariant removed == old(trees).Keys - trees.Keys && trees.Keys <= old(trees).Keys
        invariant SweptTrees(old(trees), order, referenced, now, minAge, Cut(old(budget), torn))
               == SweptTrees(trees, order[i..], referenced, now, minAge, Cut(budget, torn))
      {
        var key := order[i];
        assert order[i..][1..] == order[i + 1..];
        if key in trees && Orphan(trees[key], key, referenced, now, minAge) {
          var alive := Spend();
          if !alive {
            trees := trees[key := Stump(trees[key], now, torn)];
            return;
          }
          trees := trees - {key};
          removed := removed + {key};
        }
        i := i + 1;
      }
    }

    /** Stage and commit one found service of a recursive import. */
    method CommitCandidate(staging: string, src: Source, tree: Option<Key>, id: string, stored: bool) returns (ok: bool)
      requires !down && Valid() && WellFormed(src) && ValidId(id) && IsStaging(staging) && staging in services
      requires RightTree(src, tree, trees)
      modifies this`budget, this`down, this`services, this`rows
      ensures Valid() && (ok ==> Get(rows, id) == Some(src.version)) && (!down ==> ok == stored && staging in services)
      ensures ok ==> !down && HoldsTrees(services, trees, id, src)
      ensures SameElsewhere(old(services), services, {id, BackupName(id), staging})
      ensures SameElsewhere(old(rows), rows, {id})
      ensures Imported(old(SlotOf(services, rows, id)), SlotOf(services, rows, id), src, stored, torn, !down, true)
    {
      hide LinksOk, OnlyDirs, Tears, BackupName, WellFormed, HoldsStaged, StagedDir;
      NamesDiffer(id, staging);
      ghost var s := SlotOf(services, rows, id);
      var alive := StageServiceCommit(staging, src, tree);
      SlotElsewhere(old(services), services, rows, id, staging);
      if !alive {
        return false;
      }
      ghost var cut := Cut(budget, torn);
      ok := CommitImportedService(id, src.version, staging, stored);
      assert CommittedAs(s, SlotOf(services, rows, id), src, stored, tree, cut, !down);
      if ok {
        CommittedHolds(s, SlotOf(services, rows, id), src, tree, cut);
        StagedHoldsTrees(services, trees, id, src, tree);
      }
    }

    /** Commit the found services one after another, stopping at the first that fails. */
    method CommitCandidates(staging: string, base: Source, tree: Option<Key>, found: seq<Candidate>) returns (ok: bool)
      requires !down && Valid() && WellFormed(base) && DistinctIds(found) && IsStaging(staging) && staging in services
      requires RightTree(base, tree, trees) && SettledBut(services, rows, staging)
      modifies this`budget, this`down, this`services, this`rows
      ensures Valid() && AllSafe(services, rows) && (ok ==> !down)
      ensures !down ==> SettledBut(services, rows, staging)
      ensures ok ==> forall c :: c in found ==> Get(rows, c.id) == Some(base.version.(descriptor := c.descriptor))
      ensures ok ==> DirsOf(services, trees, base, found, |found|)
      ensures !down && (forall c :: c in found ==> c.stored) ==> ok
      ensures SameElsewhere(old(rows), rows, set c | c in found :: c.id)
    {
      hide *;
      ok := true;
      DirsBegin(services, trees, base, found);
      var i := 0;
      SettledButIsSafe(services, rows, staging);
      RowsBegin(rows, base, found);
      while i < |found|
        invariant 0 <= i <= |found| && !down && Valid() && AllSafe(services, rows)
        invariant SettledBut(services, rows, staging) && staging in services
        invariant RowsOf(old(rows), rows, base, found, i) && DirsOf(services, trees, base, found, i)
      {
        ghost var was, were := services, rows;
        CandidateReads(base, found, i);
        SameRightTree(base, found[i], tree, trees);
        var src := SourceOf(base, found[i]);
        var done := CommitCandidate(staging, src, tree, found[i].id, found[i].stored);
        CandidateSettles(was, services, were, rows, found[i].id, staging, src, found[i].stored, torn, down, true);
        RowsGrow(old(rows), were, rows, base, found, i, done);
        if !done {
          return false;
        }
        DirsGrow(was, services, trees, base, found, i, staging);
        i := i + 1;
      }
      RowsEnd(old(rows), rows, base, found);
    }

    /** A recursive import: one package, one tree, many services. */
    method ImportRecursive(base: Source, found: seq<Candidate>, stop: Stop, now: int) returns (ok: bool)
      requires !down && Valid() && WellFormed(base) && DistinctIds(found) && AllSettled(services, rows)
      modifies this`budget, this`down, this`services, this`rows, this`trees
      ensures Valid() && AllSafe(services, rows) && (!down ==> AllSettled(services, rows))
      ensures PublishedAtMost(old(trees), trees, KeyOf(base), now)
      ensures ok ==> stop == Never && forall c :: c in found ==> Get(rows, c.id) == Some(base.version.(descriptor := c.descriptor))
      ensures !down && stop == Never && (forall c :: c in found ==> c.stored) ==> ok
      ensures ok && !down ==> forall c :: c in found ==> HoldsTrees(services, trees, c.id, base)
      ensures SameElsewhere(old(rows), rows, set c | c in found :: c.id)
    {
      hide *;
      ok := false;
      var staging := StagingName("recursive-import");
      RecursiveStaging();
      var alive := OpenStaging(staging, base);
      SettledElsewhere(old(services), services, rows, staging);
      NothingPublished(trees, KeyOf(base), now);
      SameRows(rows, set c | c in found :: c.id);
      if !alive {
        return;
      }
      if stop != AfterSource {
        ghost var was := services;
        var tree;
        alive, tree := PrepareServiceRuntime(staging, base, now);
        SettledElsewhere(was, services, rows, staging);
        if !alive {
          return;
        }
        if stop == Never {
          ok := CommitCandidates(staging, base, tree, found);
          if down {
            return;
          }
        }
      }
      ghost var was := services;
      var _ := RemoveAll(staging);
      OneNameMoved(was, services, staging);
      SettledElsewhere(was, services, rows, staging);
      StagingGone(services, rows, staging);
      if ok {
        DirsEnd(was, services, trees, base, found, staging);
      }
    }

    /** Any number of daemon lives, each cut wherever its budget ends, each beginning with
        the recovery sweep. */
    method Live(lives: seq<DaemonLife>) returns (sweepsDone: bool)
      requires Valid() && AllSafe(services, rows) && Whole(trees)
      requires down || AllSettled(services, rows)
      requires forall l :: l in lives ==> LifeOk(l)
      modifies this
      ensures Valid() && AllSafe(services, rows)
      ensures !down ==> AllSettled(services, rows)
      ensures sweepsDone ==> Whole(trees)
    {
      hide LinksOk, OnlyDirs, Tears, AllSafe, AllSettled, Whole, LifeOk;
      sweepsDone := true;
      var i := 0;
      while i < |lives|
        invariant 0 <= i <= |lives| && Valid() && AllSafe(services, rows)
        invariant !down ==> AllSettled(services, rows)
        invariant sweepsDone ==> Whole(trees)
      {
        budget, torn, down := lives[i].budget, lives[i].torn, false;
        ReadLife(lives[i]);
        var done := LiveOnce(lives[i].acts);
        sweepsDone := sweepsDone && done;
        i := i + 1;
      }
    }

    method LiveOnce(acts: seq<Act>) returns (sweepsDone: bool)
      requires Valid() && AllSafe(services, rows) && !down && forall a :: a in acts ==> ActOk(a)
      modifies this
      ensures Valid() && AllSafe(services, rows)
      ensures !down ==> AllSettled(services, rows)
      ensures sweepsDone && Whole(old(trees)) ==> Whole(trees)
    {
      hide *;
      sweepsDone := true;
      var _, _, _ := RecoverServiceDirs();
      RecoverySettles(old(services), services, rows, torn, down);
      var i := 0;
      while i < |acts| && !down
        invariant 0 <= i <= |acts| && Valid() && AllSafe(services, rows)
        invariant !down ==> AllSettled(services, rows)
        invariant sweepsDone && Whole(old(trees)) ==> Whole(trees)
      {
        var done := Perform(acts[i]);
        sweepsDone := sweepsDone && done;
        i := i + 1;
      }
    }

    method Perform(act: Act) returns (sweepDone: bool)
      requires Valid() && AllSettled(services, rows) && !down && ActOk(act)
      modifies this`budget, this`down, this`services, this`rows, this`trees
      ensures Valid() && AllSafe(services, rows)
      ensures !down ==> AllSettled(services, rows)
      ensures sweepDone && Whole(old(trees)) ==> Whole(trees)
    {
      hide *;
      sweepDone := true;
      ActReads(act);
      SettledIsSafe(services, rows);
      match act
      case DoImport(id, src, stop, stored, now) =>
        var _ := Import(id, src, stop, stored, now);
        ImportSettles(old(services), services, old(rows), rows, id, src, stop, stored, torn, down);
        PublishKeepsWhole(old(trees), trees, KeyOf(src), now);
      case DoImportRecursive(src, found, stop, now) =>
        var _ := ImportRecursive(src, found, stop, now);
        PublishKeepsWhole(old(trees), trees, KeyOf(src), now);
      case DoSweep(order, now, minAge) =>
        ghost var cut := Cut(budget, torn);
        var _ := SweepOrphanedTrees(order, now, minAge);
        sweepDone := !down;
        FullSweepKeepsWhole(old(trees), order, Referenced(services), now, minAge, cut);
    }
  }
}
