/** The store of shared runtime trees: publishing, reuse and the orphan sweep. */
module Trees {
  import opened Files
  import opened Commit

  /** One hour, in seconds. */
  const ORPHAN_TREE_MIN_AGE := 3600

  ghost predicate Whole(trees: map<Key, Tree>) {
    forall k :: k in trees ==> trees[k].node == TreeOf(k)
  }

  /** A publish under a key that is taken keeps what is there. */
  function Published(trees: map<Key, Tree>, key: Key, now: int): map<Key, Tree> {
    if key in trees then trees else trees[key := Tree(TreeOf(key), now)]
  }

  predicate Orphan(tree: Tree, key: Key, referenced: set<Key>, now: int, minAge: int) {
    key !in referenced && !(minAge > 0 && now - tree.modified < minAge)
  }

  /** What an interrupted removal leaves. Taking an entry out touches the directory it was in,
      so the tree's own time moves only when a top entry is gone. */
  function Stump(tree: Tree, now: int, torn: Node -> Node): Tree {
    var rest := torn(tree.node);
    var touched := tree.node.Dir? && rest.Dir? && rest.entries.Keys != tree.node.entries.Keys;
    Tree(rest, if touched then now else tree.modified)
  }

  /** The sweep over the store's entries in `order`, cut at its cut.at-th removal. */
  function SweptTrees(trees: map<Key, Tree>, order: seq<Key>, referenced: set<Key>, now: int, minAge: int, cut: Cut): (map<Key, Tree>, bool)
    decreases |order|
  {
    if order == [] then (trees, true)
    else if order[0] !in trees || !Orphan(trees[order[0]], order[0], referenced, now, minAge) then
      SweptTrees(trees, order[1..], referenced, now, minAge, cut)
    else if cut.at == 0 then (trees[order[0] := Stump(trees[order[0]], now, cut.torn)], false)
    else SweptTrees(trees - {order[0]}, order[1..], referenced, now, minAge, cut.(at := cut.at - 1))
  }

  /** How many trees the sweep would remove. */
  function Removals(trees: map<Key, Tree>, order: seq<Key>, referenced: set<Key>, now: int, minAge: int): nat
    decreases |order|
  {
    if order == [] then 0
    else if order[0] !in trees || !Orphan(trees[order[0]], order[0], referenced, now, minAge) then
      Removals(trees, order[1..], referenced, now, minAge)
    else 1 + Removals(trees - {order[0]}, order[1..], referenced, now, minAge)
  }

  /** Cut or not, a tree that is referenced or too young is exactly as it was, and none appears. */
  lemma {:induction false} SweepSpares(trees: map<Key, Tree>, order: seq<Key>, referenced: set<Key>, now: int, minAge: int, cut: Cut)
    ensures var t := SweptTrees(trees, order, referenced, now, minAge, cut).0;
      && t.Keys <= trees.Keys
      && forall k :: k in trees && !Orphan(trees[k], k, referenced, now, minAge) ==> k in t && t[k] == trees[k]
    decreases |order|
  {
    if order != [] {
      SweepSpares(trees, order[1..], referenced, now, minAge, cut);
      if cut.at > 0 {
        SweepSpares(trees - {order[0]}, order[1..], referenced, now, minAge, cut.(at := cut.at - 1));
      }
    }
  }

  /** A sweep that completes removes every unreferenced tree that is old enough, and no other. */
  lemma {:induction false} SweepRemovesOrphans(trees: map<Key, Tree>, order: seq<Key>, referenced: set<Key>, now: int, minAge: int, cut: Cut)
    requires SweptTrees(trees, order, referenced, now, minAge, cut).1
    ensures SweptTrees(trees, order, referenced, now, minAge, cut).0 ==
            map k | k in trees && !(k in order && Orphan(trees[k], k, referenced, now, minAge)) :: trees[k]
    decreases |order|
  {
    if order != [] {
      var k := order[0];
      if k in trees && Orphan(trees[k], k, referenced, now, minAge) {
        SweepRemovesOrphans(trees - {k}, order[1..], referenced, now, minAge, cut.(at := cut.at - 1));
      } else {
        SweepRemovesOrphans(trees, order[1..], referenced, now, minAge, cut);
      }
    }
  }

  /** What a completed sweep over the whole store reclaims and keeps, in full. */
  lemma SweepReclaims(trees: map<Key, Tree>, order: seq<Key>, referenced: set<Key>, now: int, minAge: int, cut: Cut, key: Key)
    requires SweptTrees(trees, order, referenced, now, minAge, cut).1 && key in trees && key in order
    ensures key in SweptTrees(trees, order, referenced, now, minAge, cut).0 <==>
              key in referenced || (minAge > 0 && now - trees[key].modified < minAge)
  {
    SweepRemovesOrphans(trees, order, referenced, now, minAge, cut);
  }

  /**
   * "A directory under the store is complete or absent" holds across a sweep exactly when no
   * crash can fall on one of its removals.
   */
  lemma SweepKeepsWhole(trees: map<Key, Tree>, order: seq<Key>, referenced: set<Key>, now: int, minAge: int, at: nat)
    requires Whole(trees)
    ensures (forall torn :: Tears(torn) ==> Whole(SweptTrees(trees, order, referenced, now, minAge, Cut(at, torn)).0))
            <==> at >= Removals(trees, order, referenced, now, minAge)
  {
    if at >= Removals(trees, order, referenced, now, minAge) {
      forall torn | Tears(torn) ensures Whole(SweptTrees(trees, order, referenced, now, minAge, Cut(at, torn)).0) {
        UncutSweepStaysWhole(trees, order, referenced, now, minAge, Cut(at, torn));
      }
    } else {
      DropTears();
      CutSweepLeavesStump(trees, order, referenced, now, minAge, at);
      assert Tears(DropModules);
    }
  }

  /** A crash that took the carried modules first. */
  function DropModules(node: Node): Node {
    if node.Dir? then Dir(node.entries - {"node_modules"}) else node
  }

  lemma DropTears()
    ensures Tears(DropModules)
  {
    forall node: Node | node.Dir? ensures Pruned(node, DropModules(node)) { }
  }

  lemma {:induction false} UncutSweepStaysWhole(trees: map<Key, Tree>, order: seq<Key>, referenced: set<Key>, now: int, minAge: int, cut: Cut)
    requires Whole(trees) && cut.at >= Removals(trees, order, referenced, now, minAge)
    ensures Whole(SweptTrees(trees, order, referenced, now, minAge, cut).0)
    decreases |order|
  {
    if order != [] {
      var k := order[0];
      if k in trees && Orphan(trees[k], k, referenced, now, minAge) {
        UncutSweepStaysWhole(trees - {k}, order[1..], referenced, now, minAge, cut.(at := cut.at - 1));
      } else {
        UncutSweepStaysWhole(trees, order[1..], referenced, now, minAge, cut);
      }
    }
  }

  lemma {:induction false} CutSweepLeavesStump(trees: map<Key, Tree>, order: seq<Key>, referenced: set<Key>, now: int, minAge: int, at: nat)
    requires Whole(trees) && at < Removals(trees, order, referenced, now, minAge)
    ensures !Whole(SweptTrees(trees, order, referenced, now, minAge, Cut(at, DropModules)).0)
    decreases |order|
  {
    var k := order[0];
    if k !in trees || !Orphan(trees[k], k, referenced, now, minAge) {
      CutSweepLeavesStump(trees, order[1..], referenced, now, minAge, at);
    } else if at > 0 {
      CutSweepLeavesStump(trees - {k}, order[1..], referenced, now, minAge, at - 1);
    } else {
      assert "node_modules" in trees[k].node.entries;
      assert trees[k := Stump(trees[k], now, DropModules)][k].node != TreeOf(k);
    }
  }

  /**
   * What follows: an import that comes after such a crash is served the remains. A tree is
   * published, grows old unreferenced, the sweep dies inside its removal, and every later
   * publish under its key - and every sweep before it is old again - keeps it.
   */
  lemma StumpIsReused(key: Key, now: int, later: int)
    requires ORPHAN_TREE_MIN_AGE <= now <= later < now + ORPHAN_TREE_MIN_AGE
    ensures Tears(DropModules)
    ensures var t := SweptTrees(Published(map[], key, 0), [key], {}, now, ORPHAN_TREE_MIN_AGE, Cut(0, DropModules)).0;
      && key in t && t[key].node != TreeOf(key) && Published(t, key, later) == t
      && forall cut :: SweptTrees(t, [key], {}, later, ORPHAN_TREE_MIN_AGE, cut) == (t, true)
  {
    DropTears();
    assert "node_modules" in TreeOf(key).entries;
    var t := SweptTrees(Published(map[], key, 0), [key], {}, now, ORPHAN_TREE_MIN_AGE, Cut(0, DropModules)).0;
    assert t == map[key := Tree(DropModules(TreeOf(key)), now)];
    assert [key][1..] == [];
  }
}
