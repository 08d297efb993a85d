/** Who owns which process, goroutine and request ref, in every interleaving. */
module Ownership {
  import opened Domain
  import opened Lifecycle
  import opened Operations
  import opened Machine

  // ----- counting --------------------------------------------------------------

  /** A watcher goroutine that has not returned yet; it may still arm a restart. */
  predicate Watching(p: Proc) {
    p.watcher == Waiting || p.watcher == AtGate
  }

  function Watchers(heap: seq<Proc>, n: nat): nat
    requires n <= |heap|
  {
    if n == 0 then 0 else Watchers(heap, n - 1) + if Watching(heap[n - 1]) then 1 else 0
  }

  function Pending(timers: seq<Timer>, n: nat): nat
    requires n <= |timers|
  {
    if n == 0 then 0 else Pending(timers, n - 1) + if timers[n - 1].pending then 1 else 0
  }

  /** What one ticket adds to the refs of h: the ref it was issued, less every release call. */
  function Share(t: Ticket, h: nat): int {
    if t.handle == h then 1 - t.releases else 0
  }

  /** Refs issued on h by the first n tickets, less every release called on them. */
  function Held(tickets: seq<Ticket>, n: nat, h: nat): int
    requires n <= |tickets|
  {
    if n == 0 then 0 else Held(tickets, n - 1, h) + Share(tickets[n - 1], h)
  }

  lemma {:induction false} WatchersSet(a: seq<Proc>, b: seq<Proc>, h: nat, n: nat)
    requires n <= |a| && n <= |b| && h < |a| && h < |b|
    requires forall k :: 0 <= k < n && k != h ==> Watching(a[k]) == Watching(b[k])
    ensures Watchers(b, n) == Watchers(a, n)
              - (if h < n && Watching(a[h]) then 1 else 0) + (if h < n && Watching(b[h]) then 1 else 0)
  {
    if n > 0 {
      WatchersSet(a, b, h, n - 1);
    }
  }

  lemma {:induction false} WatchersPrefix(a: seq<Proc>, b: seq<Proc>, n: nat)
    requires n <= |a| && n <= |b|
    requires forall k :: 0 <= k < n ==> Watching(a[k]) == Watching(b[k])
    ensures Watchers(a, n) == Watchers(b, n)
  {
    if n > 0 {
      WatchersPrefix(a, b, n - 1);
    }
  }

  lemma {:induction false} NoWatchers(heap: seq<Proc>, n: nat, h: nat)
    requires h < n <= |heap| && Watchers(heap, n) == 0
    ensures !Watching(heap[h])
  {
    if h < n - 1 {
      NoWatchers(heap, n - 1, h);
    }
  }

  lemma {:induction false} PendingSet(a: seq<Timer>, b: seq<Timer>, i: nat, n: nat)
    requires n <= |a| && n <= |b| && i < |a| && i < |b|
    requires forall k :: 0 <= k < n && k != i ==> a[k].pending == b[k].pending
    ensures Pending(b, n) == Pending(a, n)
              - (if i < n && a[i].pending then 1 else 0) + (if i < n && b[i].pending then 1 else 0)
  {
    if n > 0 {
      PendingSet(a, b, i, n - 1);
    }
  }

  lemma {:induction false} PendingPrefix(a: seq<Timer>, b: seq<Timer>, n: nat)
    requires n <= |a| && n <= |b|
    requires forall k :: 0 <= k < n ==> a[k].pending == b[k].pending
    ensures Pending(a, n) == Pending(b, n)
  {
    if n > 0 {
      PendingPrefix(a, b, n - 1);
    }
  }

  lemma {:induction false} NonePending(timers: seq<Timer>, n: nat, i: nat)
    requires i < n <= |timers| && Pending(timers, n) == 0
    ensures !timers[i].pending
  {
    if i < n - 1 {
      NonePending(timers, n - 1, i);
    }
  }

  lemma {:induction false} HeldSet(a: seq<Ticket>, b: seq<Ticket>, i: nat, n: nat, h: nat)
    requires n <= |a| && n <= |b| && i < |a| && i < |b|
    requires forall k :: 0 <= k < n && k != i ==> a[k] == b[k]
    ensures Held(b, n, h) == Held(a, n, h)
              - (if i < n then Share(a[i], h) else 0) + (if i < n then Share(b[i], h) else 0)
  {
    if n > 0 {
      HeldSet(a, b, i, n - 1, h);
    }
  }

  lemma {:induction false} HeldPrefix(a: seq<Ticket>, b: seq<Ticket>, n: nat, h: nat)
    requires n <= |a| && n <= |b|
    requires forall k :: 0 <= k < n ==> a[k] == b[k]
    ensures Held(a, n, h) == Held(b, n, h)
  {
    if n > 0 {
      HeldPrefix(a, b, n - 1, h);
    }
  }

  lemma {:induction false} HeldFresh(tickets: seq<Ticket>, n: nat, h: nat)
    requires n <= |tickets| && forall i :: 0 <= i < n ==> tickets[i].handle != h
    ensures Held(tickets, n, h) == 0
  {
    if n > 0 {
      HeldFresh(tickets, n - 1, h);
    }
  }

  // ----- the invariant ---------------------------------------------------------

  /** done was closed exactly when the process was reaped, once, by whoever owns the state. */
  predicate ProcOk(p: Proc) {
    && (p.watcher == NoWatcher ==> p.reaped && p.killed && p.closes == if p.published then 1 else 0)
    && (p.watcher == Waiting ==> !p.reaped && p.closes == 0)
    && (p.watcher == AtGate || p.watcher == Finished ==> p.reaped && p.closes == 1)
    && (p.reaped ==> !p.alive)
    && (p.watcher != NoWatcher ==> p.published)
  }

  predicate ProcsOk(s: Sys) {
    && (s.tracked.Some? ==> s.tracked.value < |s.heap| && Watching(s.heap[s.tracked.value]))
    && (forall h :: 0 <= h < |s.heap| ==> ProcOk(s.heap[h]))
    && (forall h :: 0 <= h < |s.heap| && !s.heap[h].reaped && s.tracked != Some(h) ==> s.heap[h].killed)
  }

  /** The right to restart a generation is held by one watcher or one timer. */
  predicate ChainsOk(s: Sys) {
    && (forall h :: 0 <= h < |s.heap| && Watching(s.heap[h]) ==> s.heap[h].generation <= s.generation)
    && (forall i :: 0 <= i < |s.timers| && s.timers[i].pending ==> s.timers[i].generation <= s.generation)
    && (forall h, k :: 0 <= h < k < |s.heap| && Watching(s.heap[h]) && Watching(s.heap[k])
          ==> s.heap[h].generation != s.heap[k].generation)
    && (forall i, j :: 0 <= i < j < |s.timers| && s.timers[i].pending && s.timers[j].pending
          ==> s.timers[i].generation != s.timers[j].generation)
    && (forall h, i :: 0 <= h < |s.heap| && 0 <= i < |s.timers| && Watching(s.heap[h]) && s.timers[i].pending
          ==> s.heap[h].generation != s.timers[i].generation)
    && (s.tracked.Some? && s.tracked.value < |s.heap| ==>
          forall i :: 0 <= i < |s.timers| && s.timers[i].pending
            ==> s.timers[i].generation < s.heap[s.tracked.value].generation)
  }

  predicate RefsOk(s: Sys) {
    && (forall t :: 0 <= t < |s.tickets| ==> s.tickets[t].handle < |s.heap|)
    && (forall h :: 0 <= h < |s.heap| ==> s.heap[h].refs == Held(s.tickets, |s.tickets|, h))
  }

  /** q is p some steps later. */
  predicate Advances(p: Proc, q: Proc) {
    && q.pid == p.pid && q.attempt == p.attempt && q.generation == p.generation && q.published == p.published
    && (p.killed ==> q.killed) && (p.reaped ==> q.reaped) && (q.alive ==> p.alive) && p.closes <= q.closes
    && (Watching(q) ==> Watching(p))
  }

  /** What never goes back: generations, the end of the lifecycle, and every record made. */
  predicate Later(s: Sys, t: Sys) {
    && s.generation <= t.generation
    && (s.cancelled ==> t.cancelled && |t.heap| == |s.heap| && |t.timers| == |s.timers|)
    && |s.heap| <= |t.heap| && (forall h :: 0 <= h < |s.heap| ==> Advances(s.heap[h], t.heap[h]))
    && |s.timers| <= |t.timers|
    && (forall i :: 0 <= i < |s.timers| ==>
          s.timers[i].generation == t.timers[i].generation && (t.timers[i].pending ==> s.timers[i].pending))
    && |s.tickets| <= |t.tickets|
    && (forall i :: 0 <= i < |s.tickets| ==>
          s.tickets[i].handle == t.tickets[i].handle && s.tickets[i].releases <= t.tickets[i].releases)
  }

  /** The ownership invariant of s, a state at or after o. */
  predicate Inv(o: Sys, s: Sys) {
    ProcsOk(s) && ChainsOk(s) && RefsOk(s) && Later(o, s) && s.wg == Watchers(s.heap, |s.heap|) + Pending(s.timers, |s.timers|)
  }

  // ----- how the invariant survives single effects -----------------------------

  /** Only the row, the services, the clocks or the cancelled flag changed, or generation grew. */
  predicate SameTokens(s: Sys, t: Sys) {
    && t.heap == s.heap && t.tracked == s.tracked && t.timers == s.timers && t.tickets == s.tickets
    && t.wg == s.wg && t.generation >= s.generation && (s.cancelled ==> t.cancelled)
  }

  /** One process changed its marks without changing its role. */
  lemma ReplaceProc(o: Sys, s: Sys, t: Sys, h: nat)
    requires Inv(o, s) && h < |s.heap| == |t.heap| && t.heap == s.heap[h := t.heap[h]]
    requires ProcOk(t.heap[h]) && t.heap[h].generation == s.heap[h].generation && t.heap[h].refs == s.heap[h].refs
    requires Watching(t.heap[h]) ==> Watching(s.heap[h])
    requires Advances(s.heap[h], t.heap[h]) && (s.cancelled ==> t.cancelled)
    requires t.timers == s.timers && t.tickets == s.tickets && t.generation >= s.generation
    requires t.wg == s.wg - if Watching(s.heap[h]) && !Watching(t.heap[h]) then 1 else 0
    requires t.tracked == s.tracked || (t.tracked == None && s.tracked == Some(h))
    requires t.tracked == Some(h) ==> Watching(t.heap[h])
    requires !t.heap[h].reaped && t.tracked != Some(h) ==> t.heap[h].killed
    ensures Inv(o, t)
  {
    hide ProcOk, Advances, ProcsOk, ChainsOk, RefsOk, Later;
    ReplaceProcs(s, t, h);
    ReplaceChains(s, t, h);
    ReplaceRefs(s, t, h);
    ReplaceLater(o, s, t, h);
    WatchersSet(s.heap, t.heap, h, |s.heap|);
  }

  lemma ReplaceProcs(s: Sys, t: Sys, h: nat)
    requires ProcsOk(s) && h < |s.heap| == |t.heap| && t.heap == s.heap[h := t.heap[h]] && ProcOk(t.heap[h])
    requires t.tracked == s.tracked || (t.tracked == None && s.tracked == Some(h))
    requires t.tracked == Some(h) ==> Watching(t.heap[h])
    requires !t.heap[h].reaped && t.tracked != Some(h) ==> t.heap[h].killed
    ensures ProcsOk(t)
  {
    hide ProcOk;
  }

  lemma ReplaceChains(s: Sys, t: Sys, h: nat)
    requires ChainsOk(s) && h < |s.heap| == |t.heap| && t.heap == s.heap[h := t.heap[h]]
    requires t.heap[h].generation == s.heap[h].generation && (Watching(t.heap[h]) ==> Watching(s.heap[h]))
    requires t.timers == s.timers && t.generation >= s.generation
    requires t.tracked == s.tracked || t.tracked == None
    ensures ChainsOk(t)
  {
    hide Watching;
    forall k | 0 <= k < |t.heap| ensures t.heap[k].generation == s.heap[k].generation && (Watching(t.heap[k]) ==> Watching(s.heap[k])) { }
  }

  lemma ReplaceRefs(s: Sys, t: Sys, h: nat)
    requires RefsOk(s) && h < |s.heap| == |t.heap| && t.heap == s.heap[h := t.heap[h]]
    requires t.heap[h].refs == s.heap[h].refs && t.tickets == s.tickets
    ensures RefsOk(t)
  {
  }

  lemma ReplaceLater(o: Sys, s: Sys, t: Sys, h: nat)
    requires Later(o, s) && h < |s.heap| == |t.heap| && t.heap == s.heap[h := t.heap[h]]
    requires Advances(s.heap[h], t.heap[h]) && (s.cancelled ==> t.cancelled)
    requires t.timers == s.timers && t.tickets == s.tickets && t.generation >= s.generation
    ensures Later(o, t)
  {
    forall k | 0 <= k < |o.heap| ensures Advances(o.heap[k], t.heap[k]) { }
  }

  /** One more process, and the others as they were. */
  predicate Grown(a: seq<Proc>, b: seq<Proc>) {
    |b| == |a| + 1 && forall k :: 0 <= k < |a| ==> b[k] == a[k]
  }

  lemma GrownCounts(o: Sys, s: Sys, t: Sys)
    requires Inv(o, s) && Grown(s.heap, t.heap) && t.tickets == s.tickets && t.heap[|s.heap|].refs == 0
    ensures Watchers(t.heap, |t.heap|)
              == Watchers(s.heap, |s.heap|) + if Watching(t.heap[|s.heap|]) then 1 else 0
    ensures RefsOk(t)
  {
    WatchersPrefix(s.heap, t.heap, |s.heap|);
    HeldFresh(s.tickets, |s.tickets|, |s.heap|);
  }

  /** A process that was put down again before anyone watched it. */
  lemma AddDead(o: Sys, s: Sys, t: Sys)
    requires Inv(o, s) && !s.cancelled && Grown(s.heap, t.heap) && SameTokens(s.(heap := t.heap), t)
    requires var p := t.heap[|s.heap|]; ProcOk(p) && p.watcher == NoWatcher && p.refs == 0
    ensures Inv(o, t)
  {
    GrownCounts(o, s, t);
    AddDeadProcs(s, t);
    AddDeadChains(s, t);
  }

  lemma AddDeadProcs(s: Sys, t: Sys)
    requires ProcsOk(s) && Grown(s.heap, t.heap) && t.tracked == s.tracked
    requires ProcOk(t.heap[|s.heap|]) && t.heap[|s.heap|].watcher == NoWatcher
    ensures ProcsOk(t)
  {
    forall h | 0 <= h < |t.heap| ensures ProcOk(t.heap[h]) {
      if h < |s.heap| {
        assert ProcOk(s.heap[h]);
      }
    }
    forall h | 0 <= h < |t.heap| && !t.heap[h].reaped && t.tracked != Some(h) ensures t.heap[h].killed {
      assert h < |s.heap| && t.heap[h] == s.heap[h];
    }
  }

  lemma AddDeadChains(s: Sys, t: Sys)
    requires ChainsOk(s) && Grown(s.heap, t.heap) && t.tracked == s.tracked
    requires s.tracked.Some? ==> s.tracked.value < |s.heap|
    requires t.heap[|s.heap|].watcher == NoWatcher && t.timers == s.timers && t.generation >= s.generation
    ensures ChainsOk(t)
  {
    assert forall h :: 0 <= h < |t.heap| && Watching(t.heap[h]) ==> h < |s.heap| && Watching(s.heap[h]);
  }

  /** A generation nobody else may restart. */
  predicate Fresh(s: Sys, g: nat) {
    && g <= s.generation
    && (forall h :: 0 <= h < |s.heap| && Watching(s.heap[h]) ==> s.heap[h].generation < g)
    && (forall i :: 0 <= i < |s.timers| && s.timers[i].pending ==> s.timers[i].generation < g)
  }

  lemma AddWatchedProcs(s: Sys, t: Sys)
    requires ProcsOk(s) && !Live(s) && Grown(s.heap, t.heap) && t.tracked == Some(|s.heap|)
    requires ProcOk(t.heap[|s.heap|]) && t.heap[|s.heap|].watcher == Waiting
    ensures ProcsOk(t)
  {
    forall h | 0 <= h < |t.heap| ensures ProcOk(t.heap[h]) {
      if h < |s.heap| {
        assert ProcOk(s.heap[h]);
      }
    }
    forall h | 0 <= h < |t.heap| && !t.heap[h].reaped && t.tracked != Some(h) ensures t.heap[h].killed {
      assert h < |s.heap| && t.heap[h] == s.heap[h] && ProcOk(s.heap[h]);
    }
  }

  lemma AddWatchedChains(s: Sys, t: Sys)
    requires ChainsOk(s) && Grown(s.heap, t.heap) && Fresh(s, t.heap[|s.heap|].generation)
    requires t.timers == s.timers && t.generation >= s.generation && t.tracked == Some(|s.heap|)
    ensures ChainsOk(t)
  {
    hide Watching;
    var n := |s.heap|;
    forall h | 0 <= h < |t.heap| && Watching(t.heap[h])
      ensures t.heap[h].generation <= t.generation
      ensures h != n ==> t.heap[h].generation != t.heap[n].generation
      ensures forall i :: 0 <= i < |t.timers| && t.timers[i].pending ==> t.heap[h].generation != t.timers[i].generation
    {
      assert h < n ==> t.heap[h] == s.heap[h];
    }
    forall h, k | 0 <= h < k < |t.heap| && Watching(t.heap[h]) && Watching(t.heap[k])
      ensures t.heap[h].generation != t.heap[k].generation
    {
      assert h < n && t.heap[h] == s.heap[h] && (k < n ==> t.heap[k] == s.heap[k]);
    }
  }

  lemma AddWatched(o: Sys, s: Sys, t: Sys)
    requires Inv(o, s) && !Live(s) && !s.cancelled && Grown(s.heap, t.heap)
    requires SameTokens(s.(heap := t.heap, tracked := Some(|s.heap|), wg := s.wg + 1), t)
    requires var p := t.heap[|s.heap|]; ProcOk(p) && p.watcher == Waiting && p.refs == 0 && Fresh(s, p.generation)
    ensures Inv(o, t)
  {
    GrownCounts(o, s, t);
    AddWatchedProcs(s, t);
    AddWatchedChains(s, t);
  }

  // ----- how it survives the building blocks -----------------------------------

  lemma ReapKeeps(o: Sys, s: Sys, h: nat)
    requires Inv(o, s)
    ensures Inv(o, Reap(s, h))
  {
    if h < |s.heap| && s.heap[h].watcher == Waiting {
      ReplaceProc(o, s, Reap(s, h), h);
    }
  }

  lemma KillKeeps(o: Sys, s: Sys, h: nat)
    requires Inv(o, s)
    ensures Inv(o, Kill(s, h))
  {
    if h < |s.heap| {
      ReplaceProc(o, s, Kill(s, h), h);
    }
  }

  lemma OsExitKeeps(o: Sys, s: Sys, h: nat)
    requires Inv(o, s)
    ensures Inv(o, OsExit(s, h))
  {
    if h < |s.heap| {
      ReplaceProc(o, s, OsExit(s, h), h);
    }
  }

  lemma FlagKeeps(o: Sys, s: Sys, flag: bool)
    requires Inv(o, s)
    ensures Inv(o, FlagScaleToZero(s, flag))
  {
    if s.tracked.Some? {
      ReplaceProc(o, s, FlagScaleToZero(s, flag), s.tracked.value);
    }
  }

  lemma SignalShape(s: Sys, h: nat, f: StopFate)
    requires h < |s.heap|
    ensures var t := SignalAndWait(s, h, f).0; var p, q := s.heap[h], t.heap[h];
      && t == s.(heap := s.heap[h := q])
      && (q == p || q == p.(killed := true) || (p.watcher == Waiting && q == ReapedProc(p))
          || (p.watcher == Waiting && q == ReapedProc(p.(killed := true))))
      && (p.watcher == Waiting ==> q.killed || q.reaped)
  {
  }

  lemma StopShape(s: Sys, row: Row, enabled: bool, f: StopFate)
    requires s.tracked.Some? ==> s.tracked.value < |s.heap|
    ensures var t := StopProcess(s, row, enabled, f).0;
      && t.tracked == None && t.generation == s.generation + 1 && t.cancelled == s.cancelled
      && t.timers == s.timers && t.tickets == s.tickets && t.wg == s.wg && |t.heap| == |s.heap|
      && t.services == s.services
      && (s.tracked == None ==> t.heap == s.heap)
      && (s.tracked.Some? ==>
            var h := s.tracked.value;
            var p, q := s.heap[h], t.heap[h];
            && t.heap == s.heap[h := q]
            && (q == p || q == p.(killed := true) || (p.watcher == Waiting && q == ReapedProc(p))
                || (p.watcher == Waiting && q == ReapedProc(p.(killed := true))))
            && (p.watcher == Waiting ==> q.killed || q.reaped))
  {
    hide SignalAndWait, ReapedProc;
    if s.tracked.Some? {
      SignalShape(Untrack(s), s.tracked.value, f);
    }
  }

  lemma StopKeeps(o: Sys, s: Sys, row: Row, enabled: bool, f: StopFate)
    requires Inv(o, s)
    ensures Inv(o, StopProcess(s, row, enabled, f).0)
  {
    hide StopProcess;
    InvTracked(o, s);
    StopShape(s, row, enabled, f);
    if s.tracked.Some? {
      InvProcs(o, s);
      hide Inv;
      ReplaceProc(o, s, StopProcess(s, row, enabled, f).0, s.tracked.value);
    }
  }

  lemma InvProcs(o: Sys, s: Sys)
    requires Inv(o, s)
    ensures ProcsOk(s)
    ensures s.tracked.Some? ==> ProcOk(s.heap[s.tracked.value]) && Watching(s.heap[s.tracked.value])
  {
  }

  /** What no start touches. */
  predicate StartFrame(s: Sys, t: Sys) {
    && t.timers == s.timers && t.tickets == s.tickets && t.services == s.services
    && t.generation >= s.generation && (!t.cancelled ==> t.generation == s.generation)
    && (s.cancelled ==> t.cancelled)
  }

  /** A start that came up: one watched process more, under the generation it was given. */
  predicate CameUp(s: Sys, t: Sys, attempt: nat, g: nat, f: StartFate) {
    var n := |s.heap|;
    && !Live(s) && !t.cancelled && t.tracked == Some(n) && t.wg == s.wg + 1 && |t.heap| == n + 1
    && t.heap == s.heap + [t.heap[n]]
    && t.heap[n] == NewProc(f.pid, attempt, g, t.heap[n].scaleToZero).(watcher := Waiting)
  }

  /** A start that failed: at most one dead process more; a live entry it met was killed. */
  predicate PutDown(s: Sys, t: Sys) {
    var n := |s.heap|;
    && t.wg == s.wg
    && (|t.heap| == n ==> t.heap == s.heap && t.tracked == s.tracked)
    && (|t.heap| != n ==>
          && |t.heap| == n + 1 && t.heap[n].watcher == NoWatcher && t.heap[n].refs == 0 && ProcOk(t.heap[n])
          && (t.tracked == s.tracked || t.tracked == None)
          && t.heap == (if Live(s) && t.tracked == None then Kill(s, s.tracked.value) else s).heap + [t.heap[n]])
  }

  lemma RegisterShape(s: Sys, row: Row, p: Proc, attempt: nat, g: nat, f: StartFate)
    requires s.tracked.Some? ==> s.tracked.value < |s.heap|
    requires p == NewProc(f.pid, attempt, g, p.scaleToZero)
    ensures var (t, err) := Register(s, row, p, f);
      && StartFrame(s, t)
      && (err == Ok ==> !s.cancelled && CameUp(s, t, attempt, g, f))
      && (err != Ok ==> PutDown(s, t))
  {
    var (t, err) := Register(s, row, p, f);
    var n := |s.heap|;
    if !s.cancelled && !Live(s) {
      assert t.heap[n] == if err == Ok then p.(watcher := Waiting) else Discarded(p);
      assert t.heap == s.heap + [t.heap[n]];
    }
  }

  /** What the writes and an early cancellation before the process is tracked leave to say. */
  lemma FrameAhead(s: Sys, s1: Sys, r: (Sys, Outcome), attempt: nat, g: nat, f: StartFate)
    requires s1.heap == s.heap && s1.tracked == s.tracked && s1.wg == s.wg && StartFrame(s, s1) && (s.cancelled ==> s1.cancelled)
    requires StartFrame(s1, r.0)
    ensures StartFrame(s, r.0)
    ensures CameUp(s1, r.0, attempt, g, f) ==> CameUp(s, r.0, attempt, g, f)
    ensures PutDown(s1, r.0) ==> PutDown(s, r.0)
  {
  }

  lemma StartShape(s: Sys, attempt: nat, g: nat, f: StartFate)
    requires s.tracked.Some? ==> s.tracked.value < |s.heap|
    ensures var (t, err) := StartWithAttempt(s, attempt, g, f);
      && StartFrame(s, t)
      && (err == Ok ==> !s.cancelled && CameUp(s, t, attempt, g, f))
      && (err != Ok ==> PutDown(s, t))
      && (|t.heap| > |s.heap| ==> !s.cancelled)
  {
    hide Register, CameUp;
    if !s.cancelled && Known(s) && f.spawn && f.announce {
      var running := s.row.value.(enabled := true, status := Running, addr := "127.0.0.1:" + f.port, pid := Some(f.pid));
      var p := NewProc(f.pid, attempt, g, Mode(s) == ScaleToZero);
      var s1 := CancelIf(Write(s, running, true), f.cancelEarly);
      RegisterShape(s1, running, p, attempt, g, f);
      FrameAhead(s, s1, Register(s1, running, p, f), attempt, g, f);
    }
  }

  lemma StartFails(o: Sys, s: Sys, attempt: nat, g: nat, f: StartFate)
    requires Inv(o, s) && StartWithAttempt(s, attempt, g, f).1 != Ok
    ensures Inv(o, StartWithAttempt(s, attempt, g, f).0)
  {
    hide StartWithAttempt, PutDown, StartFrame, ProcsOk, ChainsOk, RefsOk, Later;
    InvTracked(o, s);
    StartShape(s, attempt, g, f);
    PutDownKeeps(o, s, StartWithAttempt(s, attempt, g, f).0);
  }

  lemma InvTracked(o: Sys, s: Sys)
    requires Inv(o, s)
    ensures s.tracked.Some? ==> s.tracked.value < |s.heap|
  {
  }

  lemma PutDownKeeps(o: Sys, s: Sys, t: Sys)
    requires Inv(o, s) && StartFrame(s, t) && PutDown(s, t) && (|t.heap| > |s.heap| ==> !s.cancelled)
    ensures Inv(o, t)
  {
    hide Inv, ProcOk, Kill;
    if |t.heap| == |s.heap| {
      SoftKeeps(o, s, t);
    } else if Live(s) && t.tracked == None {
      DisplacedKeeps(o, s, Kill(s, s.tracked.value).(tracked := None));
      KillOnly(s, s.tracked.value);
      AddDead(o, Kill(s, s.tracked.value).(tracked := None), t);
    } else {
      var s1 := s.(tracked := t.tracked);
      UntrackExited(o, s, s1);
      AddDead(o, s1, t);
    }
  }

  lemma KillOnly(s: Sys, h: nat)
    ensures var t := Kill(s, h); t == s.(heap := t.heap) && |t.heap| == |s.heap|
  {
  }

  /** The live entry a start displaces is killed and no longer tracked. */
  lemma DisplacedKeeps(o: Sys, s: Sys, t: Sys)
    requires Inv(o, s) && Live(s) && t == Kill(s, s.tracked.value).(tracked := None)
    ensures Inv(o, t)
  {
    ReplaceProc(o, s, t, s.tracked.value);
    hide Inv;
  }

  lemma StartKeeps(o: Sys, s: Sys, attempt: nat, g: nat, f: StartFate)
    requires Inv(o, s) && Fresh(s, g)
    ensures Inv(o, StartWithAttempt(s, attempt, g, f).0)
  {
    hide StartWithAttempt;
    StartShape(s, attempt, g, f);
    var (t, err) := StartWithAttempt(s, attempt, g, f);
    if err == Ok {
      AddWatched(o, s, t);
    } else {
      StartFails(o, s, attempt, g, f);
    }
  }

  /** Forgetting an entry whose process was reaped leaves nobody unowned. */
  lemma UntrackExited(o: Sys, s: Sys, t: Sys)
    requires Inv(o, s) && SameTokens(s.(tracked := t.tracked), t)
    requires t.tracked == s.tracked || (t.tracked == None && !Live(s))
    ensures Inv(o, t)
  {
    if s.tracked.Some? {
      assert ProcOk(s.heap[s.tracked.value]);
    }
  }

  lemma BumpKeeps(o: Sys, s: Sys)
    requires Inv(o, s)
    ensures Inv(o, Bump(s)) && Fresh(Bump(s), s.generation + 1)
  {
    SoftKeeps(o, s, Bump(s));
    BumpFresh(s);
    hide Inv;
  }

  lemma BumpFresh(s: Sys)
    requires ChainsOk(s)
    ensures Fresh(Bump(s), s.generation + 1)
  {
  }

  lemma StartLockedKeeps(o: Sys, s: Sys, f: StartFate)
    requires Inv(o, s)
    ensures Inv(o, StartLocked(s, f).0)
  {
    hide StartWithAttempt, Inv, Fresh;
    BumpKeeps(o, s);
    StartKeeps(o, Bump(s), 0, s.generation + 1, f);
  }

  // ----- how it survives every operation ---------------------------------------

  lemma SoftKeeps(o: Sys, s: Sys, t: Sys)
    requires Inv(o, s) && SameTokens(s, t)
    ensures Inv(o, t)
  {
  }

  lemma LandKeeps(o: Sys, s: Sys, mode: Option<RuntimeMode>, ok: bool)
    requires Inv(o, s)
    ensures Inv(o, Land(s, mode, ok).0)
  {
    SoftKeeps(o, s, Land(s, mode, ok).0);
  }

  lemma StopThenStartKeeps(o: Sys, s: Sys, wasEnabled: bool, f: RestartFate)
    requires Inv(o, s) && s.row.Some?
    ensures Inv(o, StopThenStart(s, wasEnabled, f).0)
  {
    hide StopProcess, StartLocked, Inv;
    StopKeeps(o, s, s.row.value, wasEnabled, f.stop);
    var s1 := StopProcess(s, s.row.value, wasEnabled, f.stop).0;
    SoftKeeps(o, s1, Write(s1, StoppedRow(s.row.value, false), true));
    StartLockedKeeps(o, s1, f.start);
  }

  lemma RestartLockedKeeps(o: Sys, s: Sys, wasEnabled: bool, f: RestartFate)
    requires Inv(o, s)
    ensures Inv(o, RestartLocked(s, wasEnabled, f).0)
  {
    hide StopThenStart, Inv;
    var s0 := ExitTracked(s, f.exit);
    if f.exit && s.tracked.Some? {
      ReapKeeps(o, s, s.tracked.value);
    }
    if Known(s0) {
      SoftKeeps(o, s0, Write(s0, ColdRow(s0.row.value), true));
      StopThenStartKeeps(o, s0, wasEnabled, f);
    }
  }

  lemma ControlKeeps(o: Sys, s: Sys, step: Step)
    requires Inv(o, s)
    requires step.DoStart? || step.DoStop? || step.DoRestart? || step.DoRestartIfWarm? || step.DoShutdownStop?
    ensures Inv(o, Next(s, step))
  {
    hide StopThenStart, RestartLocked, StopProcess, StartLocked, Inv;
    match step
    case DoStart(f) => StartLockedKeeps(o, s, f);
    case DoStop(read, f) => if Known(s) { StopKeeps(o, s, s.row.value, false, f); }
    case DoRestart(f) => if Known(s) { StopThenStartKeeps(o, s, s.row.value.enabled, f); }
    case DoRestartIfWarm(read, f) => if Known(s) { RestartLockedKeeps(o, s, s.row.value.enabled, f); }
    case DoShutdownStop(read, f) => if Known(s) { StopKeeps(o, s, s.row.value, s.row.value.enabled, f); }
  }

  lemma UpdateKeeps(o: Sys, s: Sys, edit: Edit, restart: bool, valid: bool, ok: bool, f: RestartFate)
    requires Inv(o, s)
    ensures Inv(o, UpdateContent(s, edit, restart, valid, ok, f).0)
  {
    hide RestartLocked, Inv;
    if Known(s) {
      var s1 := Write(s, Edited(s.row.value, edit), true);
      SoftKeeps(o, s, s1);
      RestartLockedKeeps(o, s1, s1.row.value.enabled, f);
    }
  }

  lemma DeleteKeeps(o: Sys, s: Sys, f: DeleteFate)
    requires Inv(o, s)
    ensures Inv(o, Delete(s, f).0)
  {
    hide StopProcess, Inv;
    if Known(s) {
      StopKeeps(o, s, s.row.value, false, f.stop);
      var s1 := StopProcess(s, s.row.value, false, f.stop).0;
      SoftKeeps(o, s1, Forget(s1.(row := None)));
      SoftKeeps(o, s, Forget(s.(row := None)));
    }
  }

  lemma StopAndLandKeeps(o: Sys, s: Sys, row: Row, mode: Option<RuntimeMode>, f: ModeFate)
    requires Inv(o, s)
    ensures Inv(o, StopAndLand(s, row, mode, f).0)
  {
    hide StopProcess, Land, Inv;
    StopKeeps(o, s, row, true, f.stop);
    var s1 := StopProcess(s, row, true, f.stop).0;
    LandKeeps(o, s1, mode, f.land);
    LandKeeps(o, s1, mode, f.write2);
  }

  lemma KeepModeKeeps(o: Sys, s: Sys, mode: Option<RuntimeMode>, after: RuntimeMode, f: ModeFate)
    requires Inv(o, s) && s.row.Some?
    ensures Inv(o, KeepMode(s, mode, after, f).0)
  {
    hide StopAndLand, StartLocked, Land, Inv;
    var row := s.row.value.(mode := mode);
    var s1 := Write(s, row, true);
    SoftKeeps(o, s, s1);
    StartLockedKeeps(o, s1, f.start);
    StopAndLandKeeps(o, s1, row, mode, f);
    LandKeeps(o, s1, mode, f.land);
  }

  lemma RollBackKeeps(o: Sys, s: Sys, previous: Option<RuntimeMode>, f: ModeFate)
    requires Inv(o, s)
    ensures Inv(o, RollBackMode(s, previous, f))
  {
    hide StopProcess, Land, Inv;
    if s.row.Some? {
      StopKeeps(o, s, s.row.value, true, f.stop);
      LandKeeps(o, StopProcess(s, s.row.value, true, f.stop).0, previous, f.land);
      LandKeeps(o, s, previous, f.land);
    }
  }

  lemma EnterLongRunningKeeps(o: Sys, s: Sys, mode: Option<RuntimeMode>, fromOnDemand: bool, f: ModeFate)
    requires Inv(o, s) && s.row.Some?
    ensures Inv(o, EnterLongRunning(s, mode, fromOnDemand, f).0)
  {
    hide RollBackMode, StartLocked, Inv;
    var s1 := Write(s, s.row.value.(mode := mode), true);
    SoftKeeps(o, s, s1);
    StartLockedKeeps(o, s1, f.start);
    RollBackKeeps(o, StartLocked(s1, f.start).0, s.row.value.mode, f);
  }

  lemma SetModeKeeps(o: Sys, s: Sys, mode: Option<RuntimeMode>, f: ModeFate)
    requires Inv(o, s)
    ensures Inv(o, SetRuntimeMode(s, mode, f).0)
  {
    hide KeepMode, StopAndLand, EnterLongRunning, Inv;
    if !s.cancelled && Known(s) {
      var after := EffectiveRuntimeMode(s.services[s.row.value.service], mode);
      var s1 := FlagScaleToZero(s, after == ScaleToZero);
      FlagKeeps(o, s, after == ScaleToZero);
      KeepModeKeeps(o, s1, mode, after, f);
      SoftKeeps(o, s1, Bump(s1));
      StopAndLandKeeps(o, Bump(s1), s1.row.value, mode, f);
      EnterLongRunningKeeps(o, s1, mode, Mode(s) == OnDemand, f);
      SoftKeeps(o, s1, EnterScaleToZero(s1, mode, Mode(s) == OnDemand, f).0);
    }
  }

  lemma ApplyModeKeeps(o: Sys, s: Sys, f: ApplyFate)
    requires Inv(o, s)
    ensures Inv(o, ApplyServiceRuntimeMode(s, f).0)
  {
    hide StopProcess, RestartLocked, Land, Inv;
    if Known(s) {
      var s1, row := Bump(s), s.row.value;
      SoftKeeps(o, s, s1);
      StopKeeps(o, s1, row, row.enabled, f.stop);
      LandKeeps(o, s1, row.mode, f.land);
      LandKeeps(o, StopProcess(s1, row, row.enabled, f.stop).0, row.mode, f.land);
      RestartLockedKeeps(o, s1, row.enabled, f.restart);
      SoftKeeps(o, s1, Write(s1, ColdRow(row), true));
    }
  }

  lemma CreateNewKeeps(o: Sys, s: Sys, req: CreateRequest, f: CreateFate)
    requires Inv(o, s) && req.service in s.services
    ensures Inv(o, CreateNew(s, req, f).0)
  {
    hide StartLocked, Inv;
    var svc := s.services[req.service];
    var mode := EffectiveRuntimeMode(svc, req.mode);
    var start := req.start && mode == LongRunning;
    var row := Row(req.service, RequestName(s, req), svc.nodeEntry, req.config, req.secret, req.mode,
                   req.start || mode != LongRunning,
                   if mode == OnDemand then Running else if start then Starting else Stopped, None, "");
    SoftKeeps(o, s, Write(s, row, true));
    StartLockedKeeps(o, Write(s, row, true), f.start);
  }

  lemma CreateNoopKeeps(o: Sys, s: Sys, req: CreateRequest, f: CreateFate)
    requires Inv(o, s) && s.row.Some? && req.service in s.services
    ensures Inv(o, CreateNoop(s, req, f).0)
  {
    hide StartLocked, Land, Inv;
    LandKeeps(o, s, s.row.value.mode, f.land);
    StartLockedKeeps(o, s, f.start);
    SoftKeeps(o, s, Write(s, ColdRow(s.row.value), true));
  }

  lemma CommitMergedKeeps(o: Sys, s: Sys, merged: Row, f: CreateFate)
    requires Inv(o, s)
    ensures Inv(o, CommitMerged(s, merged, f).0)
  {
    hide Land, FlagScaleToZero, Inv;
    SoftKeeps(o, s, Write(s, merged, true));
    FlagKeeps(o, Write(s, merged, true), false);
    LandKeeps(o, FlagScaleToZero(Write(s, merged, true), false), merged.mode, f.land);
  }

  lemma ConvergeOnDemandKeeps(o: Sys, s: Sys, row: Row, merged: Row, f: CreateFate)
    requires Inv(o, s)
    ensures Inv(o, ConvergeOnDemand(s, row, merged, f).0)
  {
    hide StopProcess, Land, Inv;
    SoftKeeps(o, s, Bump(s));
    StopKeeps(o, Bump(s), merged, true, f.stop);
    LandKeeps(o, StopProcess(Bump(s), merged, true, f.stop).0, merged.mode, f.land);
    LandKeeps(o, s, merged.mode, f.land);
  }

  lemma LeaveOnDemandKeeps(o: Sys, s: Sys, row: Row, merged: Row, after: RuntimeMode, f: CreateFate)
    requires Inv(o, s)
    ensures Inv(o, LeaveOnDemand(s, row, merged, after, f).0)
  {
    hide StartLocked, Inv;
    SoftKeeps(o, s, Write(s, ColdRow(merged), true));
    StartLockedKeeps(o, s, f.start);
    var s1 := StartLocked(s, f.start).0;
    SoftKeeps(o, s1, Write(s1, LandedRow(merged, row.mode), f.rollback));
  }

  lemma ConvergeKeeps(o: Sys, s: Sys, row: Row, merged: Row, before: RuntimeMode, after: RuntimeMode,
                      tracked: bool, contentChanged: bool, f: CreateFate)
    requires Inv(o, s) && s.row.Some?
    ensures Inv(o, Converge(s, row, merged, before, after, tracked, contentChanged, f).0)
  {
    hide StartLocked, RestartLocked, ConvergeOnDemand, LeaveOnDemand, Inv;
    ConvergeOnDemandKeeps(o, s, row, merged, f);
    LeaveOnDemandKeeps(o, s, row, merged, after, f);
    RestartLockedKeeps(o, s, merged.enabled, f.restart);
    StartLockedKeeps(o, s, f.start);
    SoftKeeps(o, s, Write(s, ColdRow(merged), true));
    SoftKeeps(o, s, s.(lastActivity := Some(f.now)));
  }

  lemma CreateChangedKeeps(o: Sys, s: Sys, req: CreateRequest, f: CreateFate)
    requires Inv(o, s) && Known(s) && req.service in s.services
    ensures Inv(o, CreateChanged(s, req, f).0)
  {
    hide StopProcess, CommitMerged, Converge, Inv;
    var svc, row := s.services[req.service], s.row.value;
    var merged := Merged(s, row, req, svc);
    var after := EffectiveRuntimeMode(svc, req.mode);
    SoftKeeps(o, s, Bump(s));
    StopKeeps(o, Bump(s), row, true, f.stop);
    var s1 := StopProcess(Bump(s), row, true, f.stop).0;
    SoftKeeps(o, s1, Write(s1, LandedRow(merged, merged.mode), true));
    CommitMergedKeeps(o, s1, merged, f);
    CommitMergedKeeps(o, Bump(s), merged, f);
    SoftKeeps(o, s, Write(s, merged, true));
    FlagKeeps(o, Write(s, merged, true), after == ScaleToZero);
    ConvergeKeeps(o, FlagScaleToZero(Write(s, merged, true), after == ScaleToZero), row, merged, Mode(s), after,
                  Live(s), ContentChanged(row, req, svc), f);
  }

  lemma CreateKeeps(o: Sys, s: Sys, req: CreateRequest, f: CreateFate)
    requires Inv(o, s)
    ensures Inv(o, CreateInstance(s, req, f).0)
  {
    hide CreateNew, CreateNoop, CreateChanged, Inv;
    if req.service in s.services {
      if s.row.None? {
        CreateNewKeeps(o, s, req, f);
      } else {
        CreateNoopKeeps(o, s, req, f);
        if Known(s) {
          CreateChangedKeeps(o, s, req, f);
        }
      }
    }
  }

  lemma TakeRefKeeps(o: Sys, s: Sys)
    requires Inv(o, s)
    ensures Inv(o, TakeRef(s))
  {
    hide ProcsOk, ChainsOk, RefsOk, Later, Watchers, Pending;
    InvTracked(o, s);
    TakeRefOnlyRefs(s);
    TakeRefCounts(s);
    SameRoles(s, TakeRef(s));
    TakeRefLater(s);
    LaterLater(o, s, TakeRef(s));
  }

  lemma TakeRefOnlyRefs(s: Sys)
    ensures var t := TakeRef(s);
      && |t.heap| == |s.heap| && (forall h :: 0 <= h < |s.heap| ==> t.heap[h] == s.heap[h].(refs := t.heap[h].refs))
      && t == s.(heap := t.heap, tickets := t.tickets)
  {
  }

  lemma TakeRefCounts(s: Sys)
    requires RefsOk(s)
    ensures RefsOk(TakeRef(s))
  {
    var t := TakeRef(s);
    if s.tracked.Some? && s.tracked.value < |s.heap| {
      forall k | 0 <= k < |t.heap| ensures t.heap[k].refs == Held(t.tickets, |t.tickets|, k) {
        HeldPrefix(s.tickets, t.tickets, |s.tickets|, k);
      }
    }
  }

  lemma TakeRefLater(s: Sys)
    ensures Later(s, TakeRef(s))
  {
  }

  lemma ReleaseRefs(s: Sys, i: nat)
    requires RefsOk(s)
    ensures RefsOk(Release(s, i))
  {
    var t := Release(s, i);
    if i < |s.tickets| {
      forall k | 0 <= k < |t.heap| ensures t.heap[k].refs == Held(t.tickets, |t.tickets|, k) {
        HeldSet(s.tickets, t.tickets, i, |s.tickets|, k);
      }
    }
  }

  /** Ref counts and tickets play no part in who owns a process or a restart. */
  lemma SameRoles(s: Sys, t: Sys)
    requires ProcsOk(s) && ChainsOk(s) && |t.heap| == |s.heap|
    requires forall h :: 0 <= h < |s.heap| ==> t.heap[h] == s.heap[h].(refs := t.heap[h].refs)
    requires t.tracked == s.tracked && t.timers == s.timers && t.generation == s.generation
    ensures ProcsOk(t) && ChainsOk(t) && Watchers(t.heap, |t.heap|) == Watchers(s.heap, |s.heap|)
  {
    WatchersPrefix(s.heap, t.heap, |s.heap|);
    forall h | 0 <= h < |t.heap| ensures ProcOk(t.heap[h]) {
      assert ProcOk(s.heap[h]);
    }
    assert ProcsOk(t);
  }

  lemma ReleaseKeeps(o: Sys, s: Sys, i: nat)
    requires Inv(o, s)
    ensures Inv(o, Release(s, i))
  {
    hide RefsOk, ProcsOk, ChainsOk, Later, Watchers, Pending;
    ReleaseRefs(s, i);
    ReleaseOnlyRefs(s, i);
    SameRoles(s, Release(s, i));
    ReleaseLater(s, i);
    LaterLater(o, s, Release(s, i));
  }

  lemma ReleaseOnlyRefs(s: Sys, i: nat)
    ensures var t := Release(s, i);
      && |t.heap| == |s.heap| && (forall h :: 0 <= h < |s.heap| ==> t.heap[h] == s.heap[h].(refs := t.heap[h].refs))
      && t == s.(heap := t.heap, tickets := t.tickets)
  {
  }

  lemma ReleaseLater(s: Sys, i: nat)
    ensures Later(s, Release(s, i))
  {
  }

  lemma LaterLater(o: Sys, s: Sys, t: Sys)
    requires Later(o, s) && Later(s, t)
    ensures Later(o, t)
  {
  }

  lemma EnsureKeeps(o: Sys, s: Sys, f: EnsureFate)
    requires Inv(o, s)
    ensures Inv(o, EnsureStarted(s, f).0)
  {
    hide StartLocked, TakeRef, Inv;
    SoftKeeps(o, s, s.(lastActivity := Some(f.now)));
    TakeRefKeeps(o, s.(lastActivity := Some(f.now)));
    var s0 := s.(startFailure := None, lastActivity := Some(f.now));
    SoftKeeps(o, s, s0);
    StartLockedKeeps(o, s0, f.start);
    var s1 := StartLocked(s0, f.start).0;
    SoftKeeps(o, s1, s1.(startFailure := Some(f.failedAt)));
    SoftKeeps(o, s1, s1.(startFailure := None));
    TakeRefKeeps(o, s1.(startFailure := None));
  }

  /** Neither a watcher nor a timer holds generation g. */
  predicate Unclaimed(s: Sys, g: nat) {
    && (forall h :: 0 <= h < |s.heap| && Watching(s.heap[h]) ==> s.heap[h].generation != g)
    && (forall i :: 0 <= i < |s.timers| && s.timers[i].pending ==> s.timers[i].generation != g)
  }

  lemma FinishKeeps(o: Sys, s: Sys, h: nat)
    requires Inv(o, s) && h < |s.heap| && s.heap[h].watcher == AtGate
    ensures var t := Finish(s, h).(tracked := if s.tracked == Some(h) then None else s.tracked);
      Inv(o, t) && Unclaimed(t, s.heap[h].generation) && s.heap[h].generation <= s.generation
  {
    ReplaceProc(o, s, Finish(s, h).(tracked := if s.tracked == Some(h) then None else s.tracked), h);
  }

  lemma ArmChains(s: Sys, attempt: nat, g: nat)
    requires ChainsOk(s) && g <= s.generation && s.tracked == None && Unclaimed(s, g)
    ensures ChainsOk(Arm(s, attempt, g))
  {
  }

  lemma ArmLater(s: Sys, attempt: nat, g: nat)
    ensures Later(s, Arm(s, attempt, g))
  {
  }

  /** Once its watcher or timer let go of g, arming g again is safe while nothing is tracked. */
  lemma ArmKeeps(o: Sys, s: Sys, attempt: nat, g: nat)
    requires Inv(o, s) && g <= s.generation && s.tracked == None && Unclaimed(s, g)
    ensures Inv(o, Arm(s, attempt, g))
  {
    var t := Arm(s, attempt, g);
    if !s.cancelled {
      PendingPrefix(s.timers, t.timers, |s.timers|);
    }
    ArmChains(s, attempt, g);
    ArmLater(s, attempt, g);
    LaterLater(o, s, t);
    hide ChainsOk, Later;
  }

  lemma WakeKeeps(o: Sys, s: Sys, h: nat, f: WakeFate)
    requires Inv(o, s)
    ensures Inv(o, Wake(s, h, f))
  {
    hide Inv, Unclaimed;
    if h < |s.heap| && s.heap[h].watcher == AtGate {
      FinishKeeps(o, s, h);
      if s.tracked == Some(h) {
        var p, t := s.heap[h], Finish(s, h).(tracked := None);
        var s1 := t.(lastActivity := None);
        SoftKeeps(o, t, s1);
        if s.row.Some? {
          var s2 := Write(s1, s.row.value.(status := Degraded, pid := None), f.write);
          SoftKeeps(o, s1, s2);
          UnclaimedSoft(t, s2, p.generation);
          ArmKeeps(o, s2, p.attempt + 1, p.generation);
          SoftKeeps(o, s1, Write(s1, ColdRow(s.row.value).(status := Degraded), f.write));
        }
      }
    }
  }

  lemma DisarmKeeps(o: Sys, s: Sys, i: nat)
    requires Inv(o, s) && i < |s.timers| && s.timers[i].pending
    ensures Inv(o, Disarm(s, i)) && Unclaimed(Disarm(s, i), s.timers[i].generation)
    ensures s.timers[i].generation == s.generation ==>
              s.tracked == None && Fresh(Disarm(s, i), s.generation)
  {
    hide ProcsOk, ChainsOk, RefsOk, Later, Unclaimed, Fresh;
    PendingSet(s.timers, Disarm(s, i).timers, i, |s.timers|);
    DisarmProcs(s, i);
    DisarmChains(s, i);
    DisarmLater(o, s, i);
    DisarmFrees(s, i);
  }

  lemma DisarmProcs(s: Sys, i: nat)
    requires ProcsOk(s) && RefsOk(s) && i < |s.timers|
    ensures ProcsOk(Disarm(s, i)) && RefsOk(Disarm(s, i))
  {
    hide ProcOk;
  }

  lemma DisarmChains(s: Sys, i: nat)
    requires ChainsOk(s) && i < |s.timers|
    ensures ChainsOk(Disarm(s, i))
  {
    hide Watching;
    var t := Disarm(s, i);
    forall k | 0 <= k < |t.timers| ensures t.timers[k].generation == s.timers[k].generation && (t.timers[k].pending ==> s.timers[k].pending) { }
  }

  lemma DisarmLater(o: Sys, s: Sys, i: nat)
    requires Later(o, s) && i < |s.timers|
    ensures Later(o, Disarm(s, i))
  {
    hide Advances;
  }

  /** The generation a timer held is nobody's once the timer is gone. */
  lemma DisarmFrees(s: Sys, i: nat)
    requires ProcsOk(s) && ChainsOk(s) && i < |s.timers| && s.timers[i].pending
    ensures Unclaimed(Disarm(s, i), s.timers[i].generation)
    ensures s.timers[i].generation == s.generation ==> s.tracked == None && Fresh(Disarm(s, i), s.generation)
  {
    var t := Disarm(s, i);
    forall k | 0 <= k < |t.timers| && t.timers[k].pending ensures k != i && t.timers[k].generation != s.timers[i].generation { }
    assert s.tracked.Some? ==> s.heap[s.tracked.value].generation <= s.generation;
  }

  /** A failed start leaves the generation it was given as it found it. */
  lemma StartFailsUnclaimed(o: Sys, s: Sys, attempt: nat, g: nat, f: StartFate)
    requires Inv(o, s) && s.tracked == None && Unclaimed(s, g) && StartWithAttempt(s, attempt, g, f).1 != Ok
    ensures Unclaimed(StartWithAttempt(s, attempt, g, f).0, g)
    ensures StartWithAttempt(s, attempt, g, f).0.tracked == None
    ensures StartWithAttempt(s, attempt, g, f).0.generation >= s.generation
  {
    hide StartWithAttempt;
    StartShape(s, attempt, g, f);
  }

  lemma TimerKeeps(o: Sys, s: Sys, i: nat, f: TimerFate)
    requires Inv(o, s)
    ensures Inv(o, TimerFire(s, i, f))
  {
    hide StartWithAttempt, Inv, Fresh, Unclaimed;
    if i < |s.timers| && s.timers[i].pending {
      var t, s1 := s.timers[i], Disarm(s, i);
      DisarmKeeps(o, s, i);
      if t.generation == s.generation && s.row.Some? {
        StartKeeps(o, s1, t.attempt, t.generation, f.start);
        var (s2, err) := StartWithAttempt(s1, t.attempt, t.generation, f.start);
        if err != Ok {
          StartFailsUnclaimed(o, s1, t.attempt, t.generation, f.start);
          var s3 := Write(s2, s.row.value.(status := Degraded, pid := None), f.write);
          SoftKeeps(o, s2, s3);
          UnclaimedSoft(s2, s3, t.generation);
          ArmKeeps(o, s3, t.attempt + 1, t.generation);
        }
      }
    }
  }

  lemma UnclaimedSoft(s: Sys, t: Sys, g: nat)
    requires Unclaimed(s, g) && t.heap == s.heap && t.timers == s.timers
    ensures Unclaimed(t, g)
  {
  }

  lemma SurplusKeeps(o: Sys, s: Sys, f: ReconcileFate)
    requires Inv(o, s)
    ensures Inv(o, ReconcileSurplus(s, f).0)
  {
    hide StopProcess, Land, Inv;
    if s.row.Some? {
      StopKeeps(o, s, s.row.value, s.row.value.enabled, f.stop);
      LandKeeps(o, StopProcess(s, s.row.value, s.row.value.enabled, f.stop).0, s.row.value.mode, f.land);
    }
  }

  lemma RepairKeeps(o: Sys, s: Sys, f: ReconcileFate)
    requires Inv(o, s)
    ensures Inv(o, ReconcileStale(s, f).0) && Inv(o, ReconcileMissing(s, f).0)
  {
    hide StartLocked, Inv;
    if s.row.Some? {
      var t := Write(s, ColdRow(s.row.value), true);
      SoftKeeps(o, s, t);
      StartLockedKeeps(o, s, f.start);
      StartLockedKeeps(o, t, f.start);
    }
  }

  lemma SmallStepKeeps(o: Sys, s: Sys, step: Step)
    requires Inv(o, s) && (step.DoOsExit? || step.DoReap? || step.DoKillOrphan?)
    ensures Inv(o, Next(s, step))
  {
    hide Reap, Kill, OsExit, Inv;
    match step
    case DoOsExit(h) => OsExitKeeps(o, s, h);
    case DoReap(h) => ReapKeeps(o, s, h);
    case DoKillOrphan(h) => KillKeeps(o, s, h);
  }

  lemma ParkKeeps(o: Sys, s: Sys, scannedAt: int, f: ParkFate)
    requires Inv(o, s)
    ensures Inv(o, Park(s, scannedAt, f).0)
  {
    hide StopProcess, Inv;
    if s.row.Some? {
      StopKeeps(o, s, s.row.value, true, f.stop);
    }
  }

  lemma QuietStepKeeps(o: Sys, s: Sys, step: Step)
    requires Inv(o, s) && (step.DoRename? || step.DoTouch? || step.DoImport? || step.DoCancel?)
    ensures Inv(o, Next(s, step))
  {
    hide Inv;
    SoftKeeps(o, s, Next(s, step));
  }

  /** Every step of every interleaving keeps the ownership invariant. */
  lemma NextKeeps(o: Sys, s: Sys, step: Step)
    requires Inv(o, s)
    ensures Inv(o, Next(s, step))
  {
    hide Inv, ReconcileSurplus, ReconcileStale, ReconcileMissing, UpdateContent, Delete, SetRuntimeMode,
         ApplyServiceRuntimeMode, CreateInstance, EnsureStarted, Release, Wake, TimerFire, Park, OsExit, Reap, KillOrphan;
    match step
    case DoUpdate(edit, reload, valid, ok, f) => UpdateKeeps(o, s, edit, reload, valid, ok, f);
    case DoDelete(f) => DeleteKeeps(o, s, f);
    case DoSetMode(mode, f) => SetModeKeeps(o, s, mode, f);
    case DoApplyMode(f) => ApplyModeKeeps(o, s, f);
    case DoCreate(req, f) => CreateKeeps(o, s, req, f);
    case DoEnsure(f) => EnsureKeeps(o, s, f);
    case DoRelease(t) => ReleaseKeeps(o, s, t);
    case DoWake(h, f) => WakeKeeps(o, s, h, f);
    case DoTimer(i, f) => TimerKeeps(o, s, i, f);
    case DoSurplus(f) => SurplusKeeps(o, s, f);
    case DoStale(f) => RepairKeeps(o, s, f);
    case DoMissing(f) => RepairKeeps(o, s, f);
    case DoStart(f) => ControlKeeps(o, s, step);
    case DoStop(read, f) => ControlKeeps(o, s, step);
    case DoRestart(f) => ControlKeeps(o, s, step);
    case DoRestartIfWarm(read, f) => ControlKeeps(o, s, step);
    case DoShutdownStop(read, f) => ControlKeeps(o, s, step);
    case DoPark(scannedAt, f) => ParkKeeps(o, s, scannedAt, f);
    case DoOsExit(h) => SmallStepKeeps(o, s, step);
    case DoReap(h) => SmallStepKeeps(o, s, step);
    case DoKillOrphan(h) => SmallStepKeeps(o, s, step);
    case _ => QuietStepKeeps(o, s, step);
  }

  lemma {:induction false} RunKeeps(o: Sys, s: Sys, steps: seq<Step>)
    requires Inv(o, s)
    ensures Inv(o, Run(s, steps))
    decreases |steps|
  {
    if steps != [] {
      NextKeeps(o, s, steps[0]);
      RunKeeps(o, Next(s, steps[0]), steps[1..]);
    }
  }
}
