/**
 * The commit and recovery protocol as one service sees it: its live directory, its backup
 * and its row. A daemon life ends in a crash at any file operation; the next one recovers.
 */
module Commit {
  import opened Domain
  import opened Files

  /** The parts of a service row that identify the version on disk. SHA-256 is injective
      here, so the row holds contents in place of their hashes. */
  datatype Version = Version(artifactName: string, artifact: string, descriptor: string)

  datatype Slot = Slot(live: Option<Node>, backup: Option<Node>, row: Option<Version>)

  /** The crash comes `at` file operations from now; torn is what it leaves of a directory
      that was being removed. */
  datatype Cut = Cut(at: nat, torn: Node -> Node)

  function Tear(dir: Option<Node>, cut: Cut): Option<Node> {
    match dir
    case None => None
    case Some(node) => Some(cut.torn(node))
  }

  ghost predicate Tears(torn: Node -> Node) {
    forall node: Node {:trigger torn(node)} :: node.Dir? ==> Pruned(node, torn(node))
  }

  /** The dir holds the descriptor and the artifact the row names. */
  predicate Matches(row: Version, dir: Node) {
    && dir.Dir?
    && DESCRIPTOR_FILE_NAME in dir.entries && dir.entries[DESCRIPTOR_FILE_NAME] == File(row.descriptor)
    && row.artifactName in dir.entries && dir.entries[row.artifactName] == File(row.artifact)
  }

  predicate LiveMatches(s: Slot) {
    s.row.Some? && s.live.Some? && Matches(s.row.value, s.live.value)
  }

  // ----- the protocol ----------------------------------------------------------

  /**
   * replaceServiceDir, the row write and then cleanup or rollback. The operations a crash
   * can fall on are, in order: removing an old backup, moving the live dir away, moving the
   * staged dir in, writing the row, and then removing the backup, or - when the write
   * fails - removing the new dir and moving the backup back. The bool is false on a crash.
   */
  function CommitImported(s: Slot, staged: Node, svc: Version, stored: bool, cut: Cut): (Slot, bool) {
    var moved := s.(live := None, backup := s.live);
    var swapped := s.(live := Some(staged), backup := s.live);
    if cut.at == 0 then (s.(backup := Tear(s.backup, cut)), false)
    else if cut.at == 1 then (s.(backup := None), false)
    else if cut.at == 2 then (moved, false)
    else if cut.at == 3 then (swapped, false)
    else if stored then
      if cut.at == 4 then (swapped.(row := Some(svc), backup := Tear(s.live, cut)), false)
      else (Slot(Some(staged), None, Some(svc)), true)
    else if cut.at == 4 then (swapped.(live := Tear(Some(staged), cut)), false)
    else if cut.at == 5 && s.live.Some? then (moved, false)
    else (s.(backup := None), true)
  }

  predicate NeedsRollback(s: Slot) {
    s.live.None? || s.row.None? || !LiveMatches(s)
  }

  /** What the recovery sweep does when it meets this service's backup. */
  function Recover(s: Slot, cut: Cut): (Slot, bool) {
    if s.backup.None? then (s, true)
    else if NeedsRollback(s) then
      if cut.at == 0 then (s.(live := Tear(s.live, cut)), false)
      else if cut.at == 1 then (s.(live := None), false)
      else (s.(live := s.backup, backup := None), true)
    else if cut.at == 0 then (s.(backup := Tear(s.backup, cut)), false)
    else (s.(backup := None), true)
  }

  function Recovered(s: Slot): Slot {
    if s.backup.None? then s
    else if NeedsRollback(s) then s.(live := s.backup, backup := None)
    else s.(backup := None)
  }

  /** Which version recovery keeps: the one in place when it is what the row names, and the
      backup in every other case - also when no row names either. */
  lemma RecoveryChooses(s: Slot)
    requires s.backup.Some?
    ensures Recovered(s).backup == None && Recovered(s).row == s.row
    ensures s.row.Some? && s.live.Some? && Matches(s.row.value, s.live.value) ==> Recovered(s).live == s.live
    ensures !(s.row.Some? && s.live.Some? && Matches(s.row.value, s.live.value)) ==> Recovered(s).live == s.backup
  {
  }

  // ----- crash safety ----------------------------------------------------------

  /** The inductive fact: the live dir or the backup is the version the row names. */
  predicate Safe(s: Slot) {
    s.row.Some? ==> LiveMatches(s) || (s.backup.Some? && Matches(s.row.value, s.backup.value))
  }

  predicate Settled(s: Slot) {
    s.backup == None && (s.row.Some? ==> LiveMatches(s))
  }

  lemma CommitIsSafe(s: Slot, staged: Node, svc: Version, stored: bool, cut: Cut)
    requires Settled(s) && Matches(svc, staged)
    ensures var (t, done) := CommitImported(s, staged, svc, stored, cut);
      && Safe(t) && (done ==> Settled(t))
      && (done ==> t == if stored then Slot(Some(staged), None, Some(svc)) else s)
      && (t.row == s.row || (stored && t.row == Some(svc)))
  {
  }

  lemma RecoverIsSafe(s: Slot, cut: Cut)
    requires Safe(s)
    ensures var (t, done) := Recover(s, cut); Safe(t) && t.row == s.row && (done ==> Settled(t) && t == Recovered(s))
  {
  }

  /** Recovering what a recovery left changes nothing. */
  lemma RecoverTwice(s: Slot, cut: Cut)
    ensures Recover(Recovered(s), cut) == (Recovered(s), true)
  {
  }

  /**
   * A crash inside recovery loses nothing: recovering again gives what the first attempt
   * would have given, wherever the cut fell and whatever it left.
   */
  lemma RecoverResumes(s: Slot, cut: Cut)
    requires Tears(cut.torn) && (s.live.Some? ==> s.live.value.Dir?)
    ensures Recovered(Recover(s, cut).0) == Recovered(s)
  {
    if s.backup.Some? && s.live.Some? && s.row.Some? && Matches(s.row.value, cut.torn(s.live.value)) {
      PrunedMatches(s.row.value, s.live.value, cut.torn(s.live.value));
    }
  }

  /** What a removal leaves matches a row only if the whole did. */
  lemma PrunedMatches(row: Version, whole: Node, rest: Node)
    requires Pruned(whole, rest) && Matches(row, rest)
    ensures Matches(row, whole)
  {
    assert whole.entries[DESCRIPTOR_FILE_NAME] == rest.entries[DESCRIPTOR_FILE_NAME];
    assert whole.entries[row.artifactName] == rest.entries[row.artifactName];
  }

  // ----- whole runs ------------------------------------------------------------

  datatype Event =
    | Import(staged: Node, svc: Version, stored: bool, cut: Cut)
    | Restart(cut: Cut)

  /** `up` is whether a daemon that has recovered is running. A restart that is itself cut
      leaves none. */
  datatype Life = Life(slot: Slot, up: bool)

  predicate Sound(e: Event) {
    e.Import? ==> Matches(e.svc, e.staged)
  }

  function Step(l: Life, e: Event): Life {
    match e
    case Import(staged, svc, stored, cut) =>
      if !l.up then l
      else var (s, done) := CommitImported(l.slot, staged, svc, stored, cut); Life(s, done)
    case Restart(cut) =>
      var (s, done) := Recover(l.slot, cut); Life(s, done)
  }

  function Run(l: Life, events: seq<Event>): Life
    decreases |events|
  {
    if events == [] then l else Run(Step(l, events[0]), events[1..])
  }

  const UNBORN := Life(Slot(None, None, None), true)

  lemma {:induction false} RunIsSafe(l: Life, events: seq<Event>)
    requires Safe(l.slot) && (l.up ==> Settled(l.slot)) && forall e :: e in events ==> Sound(e)
    ensures var t := Run(l, events); Safe(t.slot) && (t.up ==> Settled(t.slot))
    decreases |events|
  {
    hide CommitImported, Recover;
    if events != [] {
      assert Sound(events[0]);
      match events[0] {
        case Import(staged, svc, stored, cut) => if l.up { CommitIsSafe(l.slot, staged, svc, stored, cut); }
        case Restart(cut) => RecoverIsSafe(l.slot, cut);
      }
      RunIsSafe(Step(l, events[0]), events[1..]);
    }
  }

  /** After any run of imports and restarts cut anywhere, one recovery that completes leaves
      a stored service with a dir that matches its row, and no backup. */
  lemma CrashSafety(events: seq<Event>, cut: Cut)
    requires forall e :: e in events ==> Sound(e)
    ensures var s := Run(UNBORN, events).slot;
      && Recover(s, cut).0.row == s.row
      && (Recover(s, cut).1 ==> Settled(Recover(s, cut).0) && Recover(s, cut).0 == Recovered(s))
      && Recover(Recovered(s), cut) == (Recovered(s), true)
  {
    hide CommitImported, Recover;
    RunIsSafe(UNBORN, events);
    RecoverIsSafe(Run(UNBORN, events).slot, cut);
    RecoverTwice(Run(UNBORN, events).slot, cut);
  }

  // ----- whole versions --------------------------------------------------------

  /**
   * Matching hashes is not yet a complete directory. The live dir is one of the versions
   * ever staged, entry for entry, or it is visibly not what the row names and the backup is.
   */
  ghost predicate Intact(s: Slot, versions: set<Node>) {
    s.row.Some? ==>
      || (LiveMatches(s) && s.live.value in versions)
      || (!LiveMatches(s) && s.backup.Some? && Matches(s.row.value, s.backup.value) && s.backup.value in versions)
  }

  /** The guard of the branch that breaks it: the row write fails for a version the row
      cannot tell from the one it already names. */
  predicate Indistinct(s: Slot, e: Event) {
    e.Import? && !e.stored && s.row.Some? && Matches(s.row.value, e.staged)
  }

  ghost predicate Removals(e: Event) {
    Tears(e.cut.torn) && (e.Import? ==> e.staged.Dir?)
  }

  ghost function StagedSoFar(versions: set<Node>, e: Event): set<Node> {
    if e.Import? then versions + {e.staged} else versions
  }

  predicate AllDirs(s: Slot) {
    (s.live.Some? ==> s.live.value.Dir?) && (s.backup.Some? ==> s.backup.value.Dir?)
  }

  lemma StepStaysIntact(l: Life, e: Event, versions: set<Node>)
    requires Intact(l.slot, versions) && (l.up ==> Settled(l.slot)) && AllDirs(l.slot)
    requires Sound(e) && Removals(e) && !(l.up && Indistinct(l.slot, e))
    ensures var t := Step(l, e);
      Intact(t.slot, StagedSoFar(versions, e)) && (t.up ==> Settled(t.slot)) && AllDirs(t.slot)
  {
    match e
    case Import(staged, svc, stored, cut) =>
      if l.up { ImportStaysIntact(l.slot, staged, svc, stored, cut, versions); }
    case Restart(cut) => RestartStaysIntact(l.slot, cut, versions);
  }

  lemma TornDir(torn: Node -> Node, dir: Node, row: Version)
    requires Tears(torn) && dir.Dir?
    ensures torn(dir).Dir? && (Matches(row, torn(dir)) ==> Matches(row, dir))
  {
    assert Pruned(dir, torn(dir));
    if Matches(row, torn(dir)) {
      PrunedMatches(row, dir, torn(dir));
    }
  }

  lemma ImportStaysIntact(s: Slot, staged: Node, svc: Version, stored: bool, cut: Cut, versions: set<Node>)
    requires Intact(s, versions) && Settled(s) && AllDirs(s)
    requires Matches(svc, staged) && staged.Dir? && Tears(cut.torn)
    requires !stored && s.row.Some? ==> !Matches(s.row.value, staged)
    ensures var (t, done) := CommitImported(s, staged, svc, stored, cut);
      Intact(t, versions + {staged}) && (done ==> Settled(t)) && AllDirs(t)
  {
    hide Matches, Pruned, Tears;
    var row := if s.row.Some? then s.row.value else svc;
    TornDir(cut.torn, staged, row);
    if s.live.Some? {
      TornDir(cut.torn, s.live.value, row);
    }
  }

  lemma RestartStaysIntact(s: Slot, cut: Cut, versions: set<Node>)
    requires Intact(s, versions) && AllDirs(s) && Tears(cut.torn)
    ensures var (t, done) := Recover(s, cut); Intact(t, versions) && (done ==> Settled(t)) && AllDirs(t)
  {
    hide Matches, Pruned, Tears;
    if s.live.Some? && s.row.Some? {
      TornDir(cut.torn, s.live.value, s.row.value);
    }
    if s.backup.Some? && s.row.Some? {
      TornDir(cut.torn, s.backup.value, s.row.value);
    }
    if s.row.None? {
      if s.live.Some? { TornDir(cut.torn, s.live.value, Version("", "", "")); }
      if s.backup.Some? { TornDir(cut.torn, s.backup.value, Version("", "", "")); }
    }
  }

  predicate Distinct(l: Life, events: seq<Event>)
    decreases |events|
  {
    events == [] || (!(l.up && Indistinct(l.slot, events[0])) && Distinct(Step(l, events[0]), events[1..]))
  }

  ghost function Staged(versions: set<Node>, events: seq<Event>): set<Node>
    decreases |events|
  {
    if events == [] then versions else Staged(StagedSoFar(versions, events[0]), events[1..])
  }

  /** Over a run without such an import, the recovered dir is a version as it was staged. */
  lemma {:induction false} DistinctRunsStayIntact(l: Life, events: seq<Event>, versions: set<Node>)
    requires Intact(l.slot, versions) && (l.up ==> Settled(l.slot)) && AllDirs(l.slot)
    requires Distinct(l, events) && forall e :: e in events ==> Sound(e) && Removals(e)
    ensures var s := Recovered(Run(l, events).slot);
      s.row.Some? ==> LiveMatches(s) && s.live.value in Staged(versions, events)
    decreases |events|
  {
    hide CommitImported, Recover, Indistinct;
    if events != [] {
      assert Sound(events[0]) && Removals(events[0]);
      StepStaysIntact(l, events[0], versions);
      DistinctRunsStayIntact(Step(l, events[0]), events[1..], StagedSoFar(versions, events[0]));
    }
  }

  /**
   * And exactly when an import with a failing row write may lose part of a version. A cut
   * anywhere in it, then a recovery, leaves the old version or the new one whole if and only
   * if the row can tell the two apart. Both hold a package tree beside the two files.
   */
  lemma WholeUnlessIndistinct(s: Slot, staged: Node, svc: Version)
    requires Settled(s) && s.row.Some? && Matches(svc, staged)
    requires "package" in s.live.value.entries && "package" in staged.entries && s.row.value.artifactName != "package"
    ensures !Matches(s.row.value, staged) <==>
      forall cut: Cut :: Tears(cut.torn) ==> RecoversWhole(s, staged, svc, cut)
  {
    if Matches(s.row.value, staged) {
      IndistinctMayTear(s, staged, svc);
    } else {
      forall cut: Cut | Tears(cut.torn) ensures RecoversWhole(s, staged, svc, cut) {
        TornDir(cut.torn, staged, s.row.value);
        hide Matches, Tears;
      }
    }
  }

  lemma IndistinctMayTear(s: Slot, staged: Node, svc: Version)
    requires Settled(s) && s.row.Some? && Matches(s.row.value, staged)
    requires "package" in s.live.value.entries && "package" in staged.entries && s.row.value.artifactName != "package"
    ensures exists cut: Cut :: Tears(cut.torn) && !RecoversWhole(s, staged, svc, cut)
  {
    var row := s.row.value;
    var stump := Dir(map[DESCRIPTOR_FILE_NAME := File(row.descriptor), row.artifactName := staged.entries[row.artifactName]]);
    assert Pruned(staged, stump) && Matches(row, stump);
    var cut := Cut(4, node => if node == staged then stump else node);
    assert Tears(cut.torn) by {
      forall node: Node | node.Dir? ensures Pruned(node, cut.torn(node)) { }
    }
    assert cut.torn(staged) == stump && "package" !in stump.entries;
    hide Tears, Matches, Pruned;
    assert !RecoversWhole(s, staged, svc, cut);
  }

  ghost predicate RecoversWhole(s: Slot, staged: Node, svc: Version, cut: Cut) {
    var t := Recovered(CommitImported(s, staged, svc, false, cut).0);
    t.live == s.live || t.live == Some(staged)
  }
}
