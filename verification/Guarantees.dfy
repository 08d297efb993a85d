/** What the ownership invariant means for a run: no stray process, one restart chain,
    conserved refs, a quiet shutdown. */
module Guarantees {
  import opened Domain
  import opened Lifecycle
  import opened Operations
  import opened Machine
  import opened Ownership

  /** Every state a daemon can reach for this id. */
  predicate Reachable(s: Sys, before: Sys, steps: seq<Step>) {
    Initial(before) && s == Run(before, steps)
  }

  lemma ReachableInv(s: Sys, before: Sys, steps: seq<Step>)
    requires Reachable(s, before, steps)
    ensures Inv(before, s) && Inv(s, s)
  {
    RunKeeps(before, before, steps);
  }

  // ----- processes -------------------------------------------------------------

  /** Whenever the gate is free, a process nobody waited for yet is the tracked one or was killed. */
  lemma ProcessesOwned(s: Sys, before: Sys, steps: seq<Step>, h: nat)
    requires Reachable(s, before, steps) && h < |s.heap| && !s.heap[h].reaped
    ensures s.tracked == Some(h) || s.heap[h].killed
    ensures s.heap[h].watcher == Waiting
    ensures forall k :: 0 <= k < |s.heap| && k != h && !s.heap[k].reaped && !s.heap[k].killed ==> s.heap[h].killed
  {
    ReachableInv(s, before, steps);
    assert ProcOk(s.heap[h]);
  }

  /** close(done) ran exactly once on every reaped state and never on another; a state with no
      watcher was closed by the failed start that made it. */
  lemma DoneClosedOnce(s: Sys, before: Sys, steps: seq<Step>, h: nat)
    requires Reachable(s, before, steps) && h < |s.heap|
    ensures s.heap[h].closes == if s.heap[h].published && s.heap[h].reaped then 1 else 0
    ensures s.heap[h].closes == 0 && s.heap[h].published <==> s.heap[h].watcher == Waiting
    ensures s.heap[h].watcher == NoWatcher ==> s.heap[h].killed && s.heap[h].reaped
  {
    ReachableInv(s, before, steps);
    assert ProcOk(s.heap[h]);
  }

  // ----- restart chains --------------------------------------------------------

  /** A live process and a pending backoff timer, or two of either, never share a generation. */
  lemma OneChainPerGeneration(s: Sys, before: Sys, steps: seq<Step>)
    requires Reachable(s, before, steps)
    ensures forall h, k :: 0 <= h < k < |s.heap| && !s.heap[h].reaped && !s.heap[k].reaped
              ==> s.heap[h].generation != s.heap[k].generation
    ensures forall i, j :: 0 <= i < j < |s.timers| && s.timers[i].pending && s.timers[j].pending
              ==> s.timers[i].generation != s.timers[j].generation
    ensures forall h, i :: 0 <= h < |s.heap| && 0 <= i < |s.timers| && !s.heap[h].reaped && s.timers[i].pending
              ==> s.heap[h].generation != s.timers[i].generation
  {
    ReachableInv(s, before, steps);
    assert forall h :: 0 <= h < |s.heap| && !s.heap[h].reaped ==> ProcOk(s.heap[h]) && Watching(s.heap[h]);
  }

  // ----- request refs ----------------------------------------------------------

  function Issued(tickets: seq<Ticket>, n: nat, h: nat): nat
    requires n <= |tickets|
  {
    if n == 0 then 0 else Issued(tickets, n - 1, h) + if tickets[n - 1].handle == h then 1 else 0
  }

  /** Every call of every release closure issued on h. */
  function Returned(tickets: seq<Ticket>, n: nat, h: nat): nat
    requires n <= |tickets|
  {
    if n == 0 then 0 else Returned(tickets, n - 1, h) + if tickets[n - 1].handle == h then tickets[n - 1].releases else 0
  }

  /** Requests that hold a ref on h: their closure has not been called. */
  function Holders(tickets: seq<Ticket>, n: nat, h: nat): nat
    requires n <= |tickets|
  {
    if n == 0 then 0
    else Holders(tickets, n - 1, h) + if tickets[n - 1].handle == h && tickets[n - 1].releases == 0 then 1 else 0
  }

  /** No closure issued on h was called twice. */
  predicate OnceEach(tickets: seq<Ticket>, n: nat, h: nat)
    requires n <= |tickets|
  {
    forall t :: 0 <= t < n && tickets[t].handle == h ==> tickets[t].releases <= 1
  }

  lemma {:induction false} HeldSplits(tickets: seq<Ticket>, n: nat, h: nat)
    requires n <= |tickets|
    ensures Held(tickets, n, h) == Issued(tickets, n, h) - Returned(tickets, n, h)
    ensures Held(tickets, n, h) <= Holders(tickets, n, h)
    ensures Held(tickets, n, h) == Holders(tickets, n, h) <==> OnceEach(tickets, n, h)
    ensures Holders(tickets, n, h) == 0 <==> forall t :: 0 <= t < n && tickets[t].handle == h ==> tickets[t].releases > 0
  {
    if n > 0 {
      HeldSplits(tickets, n - 1, h);
      assert tickets[n - 1].handle == h ==> (tickets[n - 1].releases == 0 ==> Holders(tickets, n, h) > 0);
      assert OnceEach(tickets, n, h) <==>
        OnceEach(tickets, n - 1, h) && (tickets[n - 1].handle == h ==> tickets[n - 1].releases <= 1);
    }
  }

  /** In every reachable state a process's refs are the refs issued on it less the release
      calls made on it, whoever makes them and however often. */
  lemma RefsConserved(s: Sys, before: Sys, steps: seq<Step>, h: nat)
    requires Reachable(s, before, steps) && h < |s.heap|
    ensures s.heap[h].refs == Issued(s.tickets, |s.tickets|, h) - Returned(s.tickets, |s.tickets|, h)
  {
    ReachableInv(s, before, steps);
    HeldSplits(s.tickets, |s.tickets|, h);
  }

  /** So they count the requests that hold one exactly when no closure was called twice, and
      never exceed them. */
  lemma RefsCountHolders(s: Sys, before: Sys, steps: seq<Step>, h: nat)
    requires Reachable(s, before, steps) && h < |s.heap|
    ensures s.heap[h].refs <= Holders(s.tickets, |s.tickets|, h)
    ensures s.heap[h].refs == Holders(s.tickets, |s.tickets|, h) <==> OnceEach(s.tickets, |s.tickets|, h)
  {
    ReachableInv(s, before, steps);
    HeldSplits(s.tickets, |s.tickets|, h);
  }

  /** A release, first or straggling, gives one ref back to the process it was issued on, and
      moves nothing else. */
  lemma ReleaseIsLocal(s: Sys, before: Sys, steps: seq<Step>, t: nat)
    requires Reachable(s, before, steps) && t < |s.tickets|
    ensures var h, s' := s.tickets[t].handle, Release(s, t);
      && h < |s.heap| && s'.heap == s.heap[h := s.heap[h].(refs := s.heap[h].refs - 1)]
      && s'.tickets == s.tickets[t := s.tickets[t].(releases := s.tickets[t].releases + 1)]
      && s' == s.(heap := s'.heap, tickets := s'.tickets)
  {
    ReachableInv(s, before, steps);
  }

  /** A request is given a ref exactly when EnsureStarted succeeds, and then on the live process. */
  lemma EnsureIssuesOneRef(s: Sys, before: Sys, steps: seq<Step>, f: EnsureFate)
    requires Reachable(s, before, steps)
    ensures var (t, err) := EnsureStarted(s, f);
      && (err != Ok ==> t.tickets == s.tickets)
      && (err == Ok ==> Live(t) && t.tickets == s.tickets + [Ticket(t.tracked.value, 0)])
      && (err == Ok ==> t.heap[t.tracked.value].refs == 1 + if Live(s) then s.heap[s.tracked.value].refs else 0)
  {
    hide StartWithAttempt;
    ReachableInv(s, before, steps);
    var s0 := s.(startFailure := None, lastActivity := Some(f.now));
    StartedHolds(s0, f.start);
  }

  lemma StartedHolds(s: Sys, f: StartFate)
    requires ProcsOk(s)
    ensures var (t, err) := StartLocked(s, f);
      && t.tickets == s.tickets
      && (err == Ok ==> Live(t) && t.heap[t.tracked.value].refs == 0)
  {
    hide StartWithAttempt;
    StartShape(Bump(s), 0, s.generation + 1, f);
  }

  /** A park that changes anything stops no process a request still holds - unless some other
      closure on that process was called twice. */
  lemma ParkSparesHeldProcesses(s: Sys, before: Sys, steps: seq<Step>, scannedAt: int, f: ParkFate)
    requires Reachable(s, before, steps)
    requires Park(s, scannedAt, f).0 != s
    ensures s.tracked.Some? && s.tracked.value < |s.heap| && Known(s) && Mode(s) == ScaleToZero
    ensures OnceEach(s.tickets, |s.tickets|, s.tracked.value) ==>
              forall t :: 0 <= t < |s.tickets| && s.tickets[t].handle == s.tracked.value ==> s.tickets[t].releases == 1
  {
    ReachableInv(s, before, steps);
    RefsCountHolders(s, before, steps, s.tracked.value);
    HeldSplits(s.tickets, |s.tickets|, s.tracked.value);
  }

  // ----- shutdown --------------------------------------------------------------

  lemma StartGivesUp(s: Sys, attempt: nat, g: nat, f: StartFate)
    ensures s.cancelled ==> StartWithAttempt(s, attempt, g, f) == (s, LifecycleOver)
  {
  }

  /** A start that Shutdown overtakes fails, and the process it spawned is already reaped. */
  lemma OvertakenStartLeavesNothing(s: Sys, before: Sys, steps: seq<Step>, attempt: nat, g: nat, f: StartFate)
    requires Reachable(s, before, steps)
    requires StartWithAttempt(s, attempt, g, f).0.cancelled
    ensures var (t, err) := StartWithAttempt(s, attempt, g, f);
      && err != Ok && (s.cancelled ==> t == s)
      && (forall h :: |s.heap| <= h < |t.heap| ==> t.heap[h].reaped && t.tracked != Some(h))
  {
    StartGivesUp(s, attempt, g, f);
    hide StartWithAttempt;
    ReachableInv(s, before, steps);
    InvTracked(before, s);
    hide Inv;
    StartShape(s, attempt, g, f);
  }

  /** After the lifecycle is cancelled no step starts a process or arms a timer. */
  lemma NothingStartsAfterCancel(s: Sys, before: Sys, steps: seq<Step>, more: seq<Step>)
    requires Reachable(s, before, steps) && s.cancelled
    ensures var t := Run(s, more);
      && t.cancelled && |t.heap| == |s.heap| && |t.timers| == |s.timers|
      && (forall h :: 0 <= h < |t.heap| && !t.heap[h].reaped ==> !s.heap[h].reaped)
      && (forall i :: 0 <= i < |t.timers| && t.timers[i].pending ==> s.timers[i].pending)
  {
    ReachableInv(s, before, steps);
    RunKeeps(s, s, more);
  }

  /**
   * Shutdown returns nil only once the wait group is empty. Then every process ever started
   * was reaped, its watcher is gone, no backoff goroutine is left, and it stays that way.
   */
  lemma ShutdownIsQuiet(s: Sys, before: Sys, steps: seq<Step>, more: seq<Step>)
    requires Reachable(s, before, steps) && s.cancelled && s.wg == 0
    ensures var t := Run(s, more);
      && t.wg == 0 && t.tracked == None && |t.heap| == |s.heap|
      && (forall h :: 0 <= h < |t.heap| ==> t.heap[h].reaped && !t.heap[h].alive && !Watching(t.heap[h]))
      && (forall i :: 0 <= i < |t.timers| ==> !t.timers[i].pending)
  {
    hide Next, Run;
    ReachableInv(s, before, steps);
    RunKeeps(s, s, more);
    var t := Run(s, more);
    forall h | 0 <= h < |s.heap| ensures !Watching(s.heap[h]) { NoWatchers(s.heap, |s.heap|, h); }
    forall i | 0 <= i < |s.timers| ensures !s.timers[i].pending { NonePending(s.timers, |s.timers|, i); }
    forall h | 0 <= h < |t.heap| ensures t.heap[h].reaped && !t.heap[h].alive && !Watching(t.heap[h]) {
      assert Advances(s.heap[h], t.heap[h]) && ProcOk(t.heap[h]);
    }
    WatchersNone(t.heap, |t.heap|);
    PendingNone(t.timers, |t.timers|);
  }

  lemma {:induction false} WatchersNone(heap: seq<Proc>, n: nat)
    requires n <= |heap| && forall h :: 0 <= h < n ==> !Watching(heap[h])
    ensures Watchers(heap, n) == 0
  {
    if n > 0 {
      WatchersNone(heap, n - 1);
    }
  }

  lemma {:induction false} PendingNone(timers: seq<Timer>, n: nat)
    requires n <= |timers| && forall i :: 0 <= i < n ==> !timers[i].pending
    ensures Pending(timers, n) == 0
  {
    if n > 0 {
      PendingNone(timers, n - 1);
    }
  }
}
