/**
 * What the operations achieve: that a start, a restart, a backoff timer or a mode switch whose
 * calls work leaves the process and the row it is for, and what is left when a call fails.
 */
module Effects {
  import opened Domain
  import opened Lifecycle
  import opened Operations
  import opened Machine
  import opened Ownership
  import Fleet
  import Intent
  import Reconcile
  import Switches

  // ----- starting --------------------------------------------------------------

  /** The process of handle h is up and watched, and the row says so. */
  predicate Runs(s: Sys, h: nat, pid: int) {
    && s.tracked == Some(h) && h < |s.heap|
    && s.heap[h].pid == pid && s.heap[h].alive && !s.heap[h].killed && !s.heap[h].reaped
    && s.heap[h].closes == 0 && s.heap[h].watcher == Waiting && s.heap[h].published
    && s.row.Some? && s.row.value.enabled && s.row.value.status == Running
    && s.row.value.pid == Some(pid) && s.row.value.addr != ""
  }

  /** t is s with one more process, which runs; nothing else has moved but the row's bookkeeping
      and the clock. */
  predicate Started(s: Sys, t: Sys, attempt: nat, g: nat, f: StartFate) {
    var n := |s.heap|;
    && Runs(t, n, f.pid) && |t.heap| == n + 1 && t.heap[..n] == s.heap
    && t.heap[n].attempt == attempt && t.heap[n].generation == g && t.heap[n].refs == 0
    && Known(s) && (t.heap[n].scaleToZero <==> Mode(s) == ScaleToZero)
    && t.row.value == s.row.value.(enabled := true, status := Running, pid := Some(f.pid), addr := t.row.value.addr)
    && t.services == s.services && t.timers == s.timers && t.tickets == s.tickets && t.cancelled == s.cancelled
    && t.lastActivity == Some(f.now) && t.startFailure == s.startFailure
  }

  /** Every call of the start works, and nothing forbids it. */
  predicate CanStart(s: Sys, f: StartFate) {
    && !s.cancelled && f.read && Known(s) && Mode(s) != OnDemand && !Live(s)
    && f.prep && f.claim && f.spawn && f.announce && !f.cancelEarly && !f.cancelLate && f.health
  }

  lemma ProbeExactly(s: Sys, row: Row, h: nat, f: StartFate)
    requires h < |s.heap| && s.heap[h].watcher == NoWatcher
    ensures var (t, err) := Probe(s, row, h, f);
      && (err == Ok <==> f.health && !s.cancelled)
      && (err == Ok ==> t == s.(heap := s.heap[h := s.heap[h].(watcher := Waiting)], wg := s.wg + 1))
  {
  }

  lemma RegisterExactly(s: Sys, row: Row, p: Proc, f: StartFate)
    requires p.watcher == NoWatcher
    ensures var (t, err) := Register(s, row, p, f);
      && (err == Ok <==> !s.cancelled && !Live(s) && f.health && !f.cancelLate)
      && (err == Ok ==> t == s.(heap := s.heap + [p.(watcher := Waiting)], tracked := Some(|s.heap|),
                                lastActivity := Some(f.now), wg := s.wg + 1))
  {
    hide Probe, Kill;
    if !s.cancelled && !Live(s) {
      var s1 := CancelIf(Spawn(s, p).(tracked := Some(|s.heap|), lastActivity := Some(f.now)), f.cancelLate);
      ProbeExactly(s1, row, |s.heap|, f);
      assert s1.heap[|s.heap| := p.(watcher := Waiting)] == s.heap + [p.(watcher := Waiting)];
    }
  }

  /** A start succeeds exactly when it can, and then its process runs. */
  lemma StartExactly(s: Sys, attempt: nat, g: nat, f: StartFate)
    ensures var (t, err) := StartWithAttempt(s, attempt, g, f);
      && (err == Ok <==> CanStart(s, f))
      && (err == Ok ==> Started(s, t, attempt, g, f) && t.generation == s.generation && t.wg == s.wg + 1)
  {
    hide Register;
    if !s.cancelled && Known(s) && f.spawn && f.announce {
      var running := s.row.value.(enabled := true, status := Running, addr := "127.0.0.1:" + f.port, pid := Some(f.pid));
      var p := NewProc(f.pid, attempt, g, Mode(s) == ScaleToZero);
      var s1 := CancelIf(Write(s, running, true), f.cancelEarly);
      RegisterExactly(s1, running, p, f);
    }
  }

  lemma StartLockedExactly(s: Sys, f: StartFate)
    ensures var (t, err) := StartLocked(s, f);
      && (err == Ok <==> CanStart(s, f))
      && (err == Ok ==> Started(s, t, 0, s.generation + 1, f) && t.generation == s.generation + 1 && t.wg == s.wg + 1)
  {
    hide StartWithAttempt;
    StartExactly(Bump(s), 0, s.generation + 1, f);
  }

  /** What a start that comes to nothing on its own account leaves in the row: it was asked for,
      and it failed. */
  lemma FailedStartShows(s: Sys, attempt: nat, g: nat, f: StartFate)
    requires CanStart(s, f.(spawn := true, health := true)) && f.settle && !(f.spawn && f.health)
    ensures var (t, err) := StartWithAttempt(s, attempt, g, f);
      && err == StartError && t.tracked == (if f.spawn then None else s.tracked)
      && t.row.Some? && t.row.value.enabled && t.row.value.status == Failed
      && (f.spawn ==> t.row.value.pid == None && t.row.value.addr == "")
  {
  }

  // ----- stopping --------------------------------------------------------------

  /** The stop sees its process exit, or there is none, and the row is written. */
  predicate CanStop(s: Sys, f: StopFate) {
    f.write && (s.tracked.Some? ==> Switches.StopSeen(f))
  }

  /** A stop whose write lands leaves a cold row and nothing tracked, and a process it stopped
      is reaped or at least killed; it succeeds exactly when it saw the exit. */
  lemma StopExactly(s: Sys, row: Row, enabled: bool, f: StopFate)
    requires ProcsOk(s)
    ensures var (t, err) := StopProcess(s, row, enabled, f);
      && (err == Ok <==> CanStop(s, f))
      && t.tracked == None && t.services == s.services && t.cancelled == s.cancelled && |t.heap| == |s.heap|
      && t.startFailure == s.startFailure && t.id == s.id
      && t.row == (if f.write then Some(row.(enabled := enabled, status := Stopped, pid := None, addr := "")) else s.row)
      && (s.tracked.Some? ==> t.heap[s.tracked.value].reaped || t.heap[s.tracked.value].killed)
      && (s.tracked.Some? && Switches.StopSeen(f) ==> t.heap[s.tracked.value].reaped)
  {
    hide ProcsOk;
    StopsProcess(s, row, enabled, f);
  }

  lemma StopsProcess(s: Sys, row: Row, enabled: bool, f: StopFate)
    requires ProcsOk(s)
    ensures s.tracked.Some? ==> s.tracked.value < |s.heap|
    ensures s.tracked.Some? ==>
      var p, q := s.heap[s.tracked.value], SignalAndWait(Untrack(s), s.tracked.value, f).0.heap[s.tracked.value];
      (q.reaped || q.killed) && (Switches.StopSeen(f) ==> q.reaped)
  {
    if s.tracked.Some? {
      assert ProcOk(s.heap[s.tracked.value]);
    }
  }

  // ----- restarting ------------------------------------------------------------

  /** A restart that works: the old process reaped, a new one of the next generations running. */
  predicate Restarted(s: Sys, t: Sys, f: RestartFate) {
    && Runs(t, |s.heap|, f.start.pid) && |t.heap| == |s.heap| + 1
    && (s.tracked.Some? && s.tracked.value < |s.heap| ==> t.heap[s.tracked.value].reaped)
    && t.heap[|s.heap|].attempt == 0 && t.heap[|s.heap|].generation == t.generation > s.generation
  }

  /** The calls of a restart of an enabled row work. */
  predicate CanRestart(s: Sys, f: RestartFate) {
    && f.read && Known(s) && Mode(s) != OnDemand && CanStop(s, f.stop)
    && !s.cancelled && Reconcile.StartSucceeds(f.start)
  }

  lemma StopThenStartWorks(s: Sys, f: RestartFate)
    requires ProcsOk(s) && CanRestart(s, f)
    ensures var (t, err) := StopThenStart(s, true, f);
      err == Ok && Restarted(s, t, f) && t.services == s.services
      && t.row.value == s.row.value.(enabled := true, status := Running, pid := Some(f.start.pid), addr := t.row.value.addr)
  {
    hide StopProcess, StartLocked, ProcsOk;
    StopExactly(s, s.row.value, true, f.stop);
    var s1 := StopProcess(s, s.row.value, true, f.stop).0;
    StopBumps(s, s.row.value, true, f.stop);
    StartLockedExactly(s1, f.start);
    assert s.tracked.Some? && s.tracked.value < |s.heap| ==>
      StartLocked(s1, f.start).0.heap[s.tracked.value] == StartLocked(s1, f.start).0.heap[..|s1.heap|][s.tracked.value];
  }

  lemma StopBumps(s: Sys, row: Row, enabled: bool, f: StopFate)
    ensures StopProcess(s, row, enabled, f).0.generation == s.generation + 1
  {
  }

  /** A disabled row is only stopped. */
  lemma StopThenStartStops(s: Sys, f: RestartFate)
    requires ProcsOk(s) && s.row.Some? && f.stop.write
    ensures var (t, _) := StopThenStart(s, false, f);
      t.tracked == None && |t.heap| == |s.heap|
      && t.row == Some(s.row.value.(enabled := false, status := Stopped, pid := None, addr := ""))
  {
    hide StopProcess, ProcsOk;
    StopExactly(s, s.row.value, false, f.stop);
  }

  /** An operator's restart. */
  lemma RestartWorks(s: Sys, f: RestartFate)
    requires ProcsOk(s)
    ensures CanRestart(s, f) && s.row.value.enabled ==> Restart(s, f).1 == Ok && Restarted(s, Next(s, DoRestart(f)), f)
    ensures f.read && Known(s) && Mode(s) != OnDemand && !s.row.value.enabled && f.stop.write ==>
      var t := Next(s, DoRestart(f)); t.tracked == None && t.row.Some? && !t.row.value.enabled && |t.heap| == |s.heap|
  {
    hide StopThenStart, ProcsOk, Restarted;
    if CanRestart(s, f) && s.row.value.enabled {
      StopThenStartWorks(s, f);
    }
    if s.row.Some? && f.stop.write {
      StopThenStartStops(s, f);
    }
  }

  /** The restart every other caller shares, of a long-running instance or a live one. */
  lemma RestartLockedWorks(s: Sys, wasEnabled: bool, f: RestartFate)
    requires ProcsOk(s) && Known(s) && (Mode(s) == LongRunning || (Live(s) && !f.exit))
    ensures CanRestart(s, f) && wasEnabled ==>
      var (t, err) := RestartLocked(s, true, f);
      err == Ok && Restarted(s, t, f) && t.services == s.services
      && t.row.value == s.row.value.(enabled := true, status := Running, pid := Some(f.start.pid), addr := t.row.value.addr)
    ensures f.read && Mode(s) != OnDemand && !wasEnabled && f.stop.write ==>
      var t := RestartLocked(s, false, f).0; t.tracked == None && t.row.Some? && !t.row.value.enabled && |t.heap| == |s.heap|
  {
    hide StopThenStart, ProcsOk, Runs;
    var s0 := ExitTracked(s, f.exit);
    ExitKeeps(s, f.exit);
    if CanRestart(s, f) {
      StopThenStartWorks(s0, f);
    }
    if f.stop.write {
      StopThenStartStops(s0, f);
    }
  }

  lemma ExitKeeps(s: Sys, b: bool)
    requires ProcsOk(s)
    ensures var t := ExitTracked(s, b);
      && ProcsOk(t) && t == s.(heap := t.heap) && |t.heap| == |s.heap| && (Live(t) <==> Live(s) && !b)
  {
    if b && s.tracked.Some? {
      assert ProcOk(s.heap[s.tracked.value]);
      ReplaceProcs(s, ExitTracked(s, b), s.tracked.value);
    }
  }

  /** RestartIfWarm on a live instance. */
  lemma RestartIfWarmWorks(s: Sys, f: RestartFate)
    requires ProcsOk(s) && Live(s) && !f.exit && CanRestart(s, f) && s.row.value.enabled
    ensures RestartIfWarm(s, true, f).1 == Ok && Restarted(s, Next(s, DoRestartIfWarm(true, f)), f)
  {
    hide RestartLocked, ProcsOk, Runs, Restarted;
    RestartLockedWorks(s, true, f);
  }

  /** An update with restart on a live instance: the new process runs under the new content. */
  lemma UpdateRestarts(s: Sys, edit: Edit, f: RestartFate)
    requires ProcsOk(s) && Live(s) && !f.exit && CanRestart(s, f) && s.row.value.enabled
    ensures UpdateContent(s, edit, true, true, true, f).1 == Ok
    ensures var t := Next(s, DoUpdate(edit, true, true, true, f));
      && Restarted(s, t, f)
      && (edit.SetConfig? ==> t.row.value.config == edit.config && t.row.value.secret == s.row.value.secret)
      && (edit.SetSecret? ==> t.row.value.secret == edit.secret && t.row.value.config == s.row.value.config)
  {
    hide RestartLocked, ProcsOk;
    var s1 := Write(s, Edited(s.row.value, edit), true);
    RowsDoNotOwn(s, Edited(s.row.value, edit));
    RestartLockedWorks(s1, true, f);
  }

  lemma RowsDoNotOwn(s: Sys, row: Row)
    ensures ProcsOk(s) ==> ProcsOk(Write(s, row, true))
  {
  }

  /** An update writes what it was given, restart or not, and no other content. */
  lemma UpdateWrites(s: Sys, edit: Edit, restart: bool, f: RestartFate)
    requires Known(s) && ProcsOk(s)
    ensures var t := UpdateContent(s, edit, restart, true, true, f).0;
      && t.row.Some?
      && t.row.value.config == (if edit.SetConfig? then edit.config else s.row.value.config)
      && t.row.value.secret == (if edit.SetSecret? then edit.secret else s.row.value.secret)
      && t.row.value.service == s.row.value.service && t.row.value.mode == s.row.value.mode && t.row.value.name == s.row.value.name
  {
    hide RestartLocked;
    Intent.RestartLockedKeepsRow(Write(s, Edited(s.row.value, edit), true), f);
  }

  /** A restart of a scale-to-zero instance that is cold repairs its row and starts nothing. */
  lemma ColdRestartRepairs(s: Sys, wasEnabled: bool, f: RestartFate)
    requires ProcsOk(s) && Known(s) && Mode(s) == ScaleToZero && (!Live(s) || f.exit) && f.read && f.write
    ensures var (t, err) := RestartLocked(s, wasEnabled, f);
      && err == Ok && |t.heap| == |s.heap| && t.tracked == s.tracked && t.generation == s.generation
      && t.row.Some? && t.row.value.enabled == s.row.value.enabled
      && t.row.value.pid == None && t.row.value.addr == "" && t.row.value.status !in {Running, Starting}
  {
    hide StopThenStart;
    ExitKeeps(s, f.exit);
  }

  // ----- the backoff restart ---------------------------------------------------

  /** Timer i is due and nothing has overtaken it. */
  predicate Due(s: Sys, i: nat, f: TimerFate) {
    && i < |s.timers| && s.timers[i].pending && !s.cancelled && s.timers[i].generation == s.generation
    && f.read && s.row.Some? && s.row.value.enabled
  }

  /** (a) A due timer starts the process, of its own attempt and generation. */
  lemma TimerRestarts(s: Sys, i: nat, f: TimerFate)
    requires Due(s, i, f) && CanStart(s, f.start)
    ensures var t := Next(s, DoTimer(i, f));
      && Runs(t, |s.heap|, f.start.pid) && |t.heap| == |s.heap| + 1
      && t.heap[|s.heap|].attempt == s.timers[i].attempt && t.heap[|s.heap|].generation == s.timers[i].generation
      && t.timers == s.timers[i := s.timers[i].(pending := false)] && t.generation == s.generation
  {
    hide StartWithAttempt;
    StartExactly(Disarm(s, i), s.timers[i].attempt, s.timers[i].generation, f.start);
  }

  /** Shutdown does not come during the start. */
  predicate Undisturbed(f: StartFate) {
    !f.cancelEarly && !f.cancelLate
  }

  lemma AttemptUnmoved(s: Sys, attempt: nat, g: nat, f: StartFate)
    requires !s.cancelled && Undisturbed(f)
    ensures var t := StartWithAttempt(s, attempt, g, f).0;
      && !t.cancelled && t.generation == s.generation && t.timers == s.timers && (t.row.Some? <==> s.row.Some?)
  {
    hide Register;
    if Known(s) && f.spawn && f.announce {
      var running := s.row.value.(enabled := true, status := Running, addr := "127.0.0.1:" + f.port, pid := Some(f.pid));
      var p := NewProc(f.pid, attempt, g, Mode(s) == ScaleToZero);
      RegisterUnmoved(Write(s, running, true), running, p, f);
    }
  }

  lemma RegisterUnmoved(s: Sys, row: Row, p: Proc, f: StartFate)
    requires !s.cancelled && Undisturbed(f) && s.row.Some?
    ensures var t := Register(s, row, p, f).0;
      && !t.cancelled && t.generation == s.generation && t.timers == s.timers && t.row.Some?
  {
  }

  /** (b) A due timer whose start fails degrades the row and arms the next attempt; no other
      timer of that generation is pending. */
  lemma TimerRearms(o: Sys, s: Sys, i: nat, f: TimerFate)
    requires Inv(o, s) && Due(s, i, f) && !CanStart(s, f.start) && Undisturbed(f.start)
    ensures var t := Next(s, DoTimer(i, f));
      && (f.write ==> t.row == Some(s.row.value.(status := Degraded, pid := None)))
      && t.generation == s.generation && |t.timers| == |s.timers| + 1
      && t.timers[|s.timers|] == Timer(s.timers[i].attempt + 1, s.generation, true)
      && forall k :: 0 <= k < |s.timers| && t.timers[k].pending ==> t.timers[k].generation != s.generation
  {
    OnlyTimer(s, i);
    hide StartWithAttempt, Inv, CanStart;
    StartExactly(Disarm(s, i), s.timers[i].attempt, s.timers[i].generation, f.start);
    AttemptUnmoved(Disarm(s, i), s.timers[i].attempt, s.timers[i].generation, f.start);
    DisarmedCanStart(s, i, f.start);
  }

  lemma OnlyTimer(s: Sys, i: nat)
    requires ChainsOk(s) && i < |s.timers| && s.timers[i].pending
    ensures forall k :: 0 <= k < |s.timers| && k != i && s.timers[k].pending ==> s.timers[k].generation != s.timers[i].generation
  {
  }

  lemma DisarmedCanStart(s: Sys, i: nat, f: StartFate)
    requires i < |s.timers|
    ensures CanStart(Disarm(s, i), f) <==> CanStart(s, f)
  {
  }

  /** The watcher of a tracked process that died with its row enabled: the row is degraded, and
      unless the instance scales to zero the next attempt is armed. */
  lemma CrashDegrades(s: Sys, h: nat, f: WakeFate)
    requires h < |s.heap| && s.heap[h].watcher == AtGate && s.tracked == Some(h) && !s.cancelled
    requires f.read && f.lookup && f.write && Known(s) && s.row.value.enabled
    requires s.row.value.pid.Some? ==> s.row.value.pid.value == s.heap[h].pid
    ensures var t := Next(s, DoWake(h, f));
      && t.tracked == None && t.row.Some? && t.row.value.enabled && t.row.value.status == Degraded && t.row.value.pid == None
      && (Mode(s) == ScaleToZero ==> t.timers == s.timers && t.row.value.addr == "")
      && (Mode(s) != ScaleToZero ==> t.timers == s.timers + [Timer(s.heap[h].attempt + 1, s.heap[h].generation, true)])
      && t.generation == s.generation && t.services == s.services && |t.heap| == |s.heap| && t.row.value.mode == s.row.value.mode
      && t.row.value.service == s.row.value.service && !t.cancelled
  {
  }

  /**
   * (c) A live long-running process dies, its watcher gets the gate, the backoff timer goes off
   * and every call works: the instance is up again exactly when its process was of the current
   * generation. Otherwise the timer stands down and the row stays degraded.
   */
  lemma CrashRestarts(s: Sys, w: WakeFate, f: TimerFate)
    requires ProcsOk(s) && s.tracked.Some? && s.heap[s.tracked.value].watcher == Waiting && !s.cancelled
    requires Known(s) && Mode(s) == LongRunning && s.row.value.enabled
    requires s.row.value.pid.Some? ==> s.row.value.pid.value == s.heap[s.tracked.value].pid
    requires w.read && w.lookup && w.write && f.read && Reconcile.StartSucceeds(f.start)
    ensures var h := s.tracked.value;
      var t := Run(s, [DoReap(h), DoWake(h, w), DoTimer(|s.timers|, f)]);
      && (Runs(t, |s.heap|, f.start.pid) && t.heap[|s.heap|].attempt == s.heap[h].attempt + 1
          <==> s.heap[h].generation == s.generation)
      && (s.heap[h].generation != s.generation ==> t.tracked == None && t.row.Some? && t.row.value.status == Degraded)
  {
    var h := s.tracked.value;
    Switches.Run3(s, DoReap(h), DoWake(h, w), DoTimer(|s.timers|, f));
    var s1 := Next(s, DoReap(h));
    ReapReads(s, h);
    CrashDegrades(s1, h, w);
    var s2 := Next(s1, DoWake(h, w));
    hide Run, ProcsOk;
    if s.heap[h].generation == s.generation {
      TimerRestarts(s2, |s.timers|, f);
    } else {
      OtherGeneration(s2, |s.timers|, f);
    }
    hide Next, Runs;
  }

  lemma ReapReads(s: Sys, h: nat)
    requires h < |s.heap| && s.heap[h].watcher == Waiting
    ensures Next(s, DoReap(h)) == s.(heap := s.heap[h := ReapedProc(s.heap[h])])
  {
  }

  lemma OtherGeneration(s: Sys, i: nat, f: TimerFate)
    requires i < |s.timers| && s.timers[i].generation != s.generation
    ensures var t := Next(s, DoTimer(i, f)); t.tracked == s.tracked && t.row == s.row
  {
  }

  /** So a long-running instance that was started and crashes comes up again by itself. */
  lemma StartedInstanceRecovers(s: Sys, start: StartFate, w: WakeFate, f: TimerFate)
    requires ProcsOk(s) && CanStart(s, start) && Mode(s) == LongRunning
    requires w.read && w.lookup && w.write && f.read && Reconcile.StartSucceeds(f.start)
    ensures var s1 := Next(s, DoStart(start));
      var t := Run(s1, [DoReap(|s.heap|), DoWake(|s.heap|, w), DoTimer(|s.timers|, f)]);
      Runs(s1, |s.heap|, start.pid) && Runs(t, |s.heap| + 1, f.start.pid)
  {
    hide StartLocked, ProcsOk;
    StartLockedExactly(s, start);
    var s1 := Next(s, DoStart(start));
    StartedProcs(s, s1, start);
    CrashRestarts(s1, w, f);
    hide Next, Run;
  }

  lemma StartedProcs(s: Sys, t: Sys, f: StartFate)
    requires ProcsOk(s) && !Live(s) && Started(s, t, 0, s.generation + 1, f) && t == StartLocked(s, f).0
    ensures ProcsOk(t)
  {
    hide StartWithAttempt;
    forall h | 0 <= h < |t.heap| ensures ProcOk(t.heap[h]) && (!t.heap[h].reaped && t.tracked != Some(h) ==> t.heap[h].killed) {
      if h < |s.heap| {
        assert t.heap[h] == t.heap[..|s.heap|][h] == s.heap[h];
        assert s.tracked == Some(h) ==> s.heap[h].reaped;
      }
    }
  }

  // ----- switching modes -------------------------------------------------------

  function Asked(s: Sys, mode: Option<RuntimeMode>): RuntimeMode
    requires Known(s)
  {
    EffectiveRuntimeMode(s.services[s.row.value.service], mode)
  }

  /** t's row is s's but for its override and what a process changes. */
  predicate SameBut(s: Sys, t: Sys) {
    && s.row.Some? && t.row.Some? && t.services == s.services
    && t.row.value.service == s.row.value.service && t.row.value.name == s.row.value.name
    && t.row.value.nodeEntry == s.row.value.nodeEntry
    && t.row.value.config == s.row.value.config && t.row.value.secret == s.row.value.secret
  }

  predicate Switched(s: Sys, t: Sys, mode: Option<RuntimeMode>) {
    SameBut(s, t) && t.row.value.mode == mode
  }

  /** What an effective mode is: the override, else the service's default, else long-running. */
  lemma EffectiveModeReads(service: Service, override: Option<RuntimeMode>)
    ensures override.Some? ==> EffectiveRuntimeMode(service, override) == override.value
    ensures override.None? && service.mode.Some? ==> EffectiveRuntimeMode(service, override) == service.mode.value
    ensures override.None? && service.mode.None? ==> EffectiveRuntimeMode(service, override) == LongRunning
  {
  }

  lemma LandSwitches(s: Sys, t: Sys, mode: Option<RuntimeMode>, ok: bool)
    requires SameBut(s, t)
    ensures var (u, err) := Land(t, mode, ok);
      && SameBut(s, u) && (err == Ok <==> ok) && u.row.value.mode == (if ok then mode else t.row.value.mode)
      && u.tracked == t.tracked && u.heap == t.heap && u.lastActivity == t.lastActivity
      && (ok ==> u.row.value.enabled && u.row.value.status == Running && u.row.value.pid == None && u.row.value.addr == "")
  {
  }

  /** Which override an on-demand switch leaves: the new one, unless the stop worked and the
      landing did not, or neither did. */
  lemma StopAndLandExactly(s: Sys, row: Row, mode: Option<RuntimeMode>, f: ModeFate)
    requires ProcsOk(s) && s.row.Some? && Intent.SameContent(row, s.row.value)
    ensures var (t, err) := StopAndLand(s, row, mode, f);
      && SameBut(s, t) && t.tracked == None
      && (err == Ok <==> CanStop(s, f.stop) && f.reread && f.write2)
      && t.row.value.mode == (if (if CanStop(s, f.stop) then f.reread && f.write2 else f.land) then mode else s.row.value.mode)
      && (err == Ok ==> t.row.value.enabled && t.row.value.status == Running && t.row.value.pid == None && t.row.value.addr == "")
  {
    hide StopProcess, ProcsOk, Land;
    StopExactly(s, row, true, f.stop);
    var s1 := StopProcess(s, row, true, f.stop).0;
    LandSwitches(s, s1, mode, f.land);
    LandSwitches(s, s1, mode, f.write2);
  }

  lemma StartKeepsSame(s: Sys, f: StartFate)
    requires s.row.Some?
    ensures var t := StartLocked(s, f).0; SameBut(s, t) && t.row.value.mode == s.row.value.mode
  {
    hide StartLocked;
    Intent.StartLockedKeepsRow(s, f);
  }

  /** An unchanged effective mode: the override is rewritten, and a cold long-running instance
      that should run is started. */
  lemma KeepModeExactly(s: Sys, mode: Option<RuntimeMode>, after: RuntimeMode, f: ModeFate)
    requires ProcsOk(s) && s.row.Some?
    ensures var (t, err) := KeepMode(s, mode, after, f);
      && SameBut(s, t) && t.row.value.mode == (if f.write then mode else s.row.value.mode)
      && (err == Ok ==> f.write && f.reread)
      && (err == Ok && after == LongRunning ==>
            (Live(t) <==> Live(s) || (s.row.value.enabled && s.row.value.status != Starting))
            && (Live(s) ==> t.tracked == s.tracked && t.heap == s.heap))
      && (err == Ok && after == ScaleToZero ==> t == Write(s, s.row.value.(mode := mode), true))
      && (err == Ok && after == OnDemand ==>
            t.row.value.enabled && t.row.value.status == Running && t.row.value.pid == None && t.row.value.addr == ""
            && (Live(s) ==> t.tracked == None))
  {
    hide StartLocked, StopAndLand, Land, ProcsOk;
    var row := s.row.value.(mode := mode);
    var s1 := Write(s, row, true);
    RowsDoNotOwn(s, row);
    StartKeepsSame(s1, f.start);
    StartLockedExactly(s1, f.start);
    StopAndLandExactly(s1, row, mode, f);
    LandSwitches(s1, s1, mode, f.land);
  }

  /** Into long-running from another mode. A start that fails on the way out of on-demand rolls
      the override back, if that write lands. */
  lemma EnterLongRunningExactly(s: Sys, mode: Option<RuntimeMode>, fromOnDemand: bool, f: ModeFate)
    requires ProcsOk(s) && s.row.Some?
    ensures var (t, err) := EnterLongRunning(s, mode, fromOnDemand, f);
      && SameBut(s, t)
      && (err == Ok ==> t.row.value.mode == mode)
      && (err == Ok ==> (Live(t) <==> Live(s) || s.row.value.enabled))
      && (err == Ok && Live(s) && !fromOnDemand ==> t.tracked == s.tracked && t.heap == s.heap)
      && (err != Ok ==>
            t.row.value.mode == if !f.write || (f.reread && fromOnDemand && s.row.value.enabled && f.land) then s.row.value.mode else mode)
  {
    hide StartLocked, RollBackMode, ProcsOk;
    var s1 := Write(s, s.row.value.(mode := mode), true);
    StartKeepsSame(s1, f.start);
    StartLockedExactly(s1, f.start);
    RollBackKeeps(s, StartLocked(s1, f.start).0, s.row.value.mode, f);
  }

  lemma RollBackKeeps(s: Sys, t: Sys, previous: Option<RuntimeMode>, f: ModeFate)
    requires SameBut(s, t)
    ensures var u := RollBackMode(t, previous, f);
      SameBut(s, u) && u.row.value.mode == if f.land then previous else t.row.value.mode
  {
    hide StopProcess, Land;
    Intent.StopKeepsRow(t, true, f.stop);
    var s1 := StopProcess(t, t.row.value, true, f.stop).0;
    LandSwitches(s, t, previous, f.land);
    LandSwitches(s, s1, previous, f.land);
  }

  /** Into scale-to-zero: a resident process is kept and its clock starts anew; from on-demand
      the instance is enabled and cold. */
  lemma EnterScaleToZeroExactly(s: Sys, mode: Option<RuntimeMode>, fromOnDemand: bool, f: ModeFate)
    requires s.row.Some?
    ensures var (t, err) := EnterScaleToZero(s, mode, fromOnDemand, f);
      && SameBut(s, t) && (err == Ok <==> f.write) && t.row.value.mode == (if f.write then mode else s.row.value.mode)
      && t.tracked == s.tracked && t.heap == s.heap && t.generation == s.generation
      && (!fromOnDemand ==> t.lastActivity == Some(f.now) && t.row.value.enabled == s.row.value.enabled
                            && t.row.value.pid == s.row.value.pid && t.row.value.status == s.row.value.status)
      && (err == Ok && fromOnDemand ==>
            t.row.value.enabled && t.row.value.status == Stopped && t.row.value.pid == None && t.row.value.addr == "")
  {
  }

  /** SetRuntimeMode gets as far as changing something. */
  predicate Admitted(s: Sys, f: ModeFate) {
    !s.cancelled && f.read && Known(s)
  }

  lemma FlagOnly(s: Sys, flag: bool)
    requires ProcsOk(s)
    ensures var t := FlagScaleToZero(s, flag);
      && ProcsOk(t) && t == s.(heap := t.heap) && |t.heap| == |s.heap| && (Live(t) <==> Live(s))
      && (s.tracked.Some? ==> t.heap[s.tracked.value] == s.heap[s.tracked.value].(scaleToZero := flag))
  {
    if s.tracked.Some? {
      assert ProcOk(s.heap[s.tracked.value]);
      ReplaceProcs(s, FlagScaleToZero(s, flag), s.tracked.value);
    }
  }

  /** A mode switch that answers Ok has switched the mode, and nothing else the row is made of. */
  lemma SetModeSwitches(s: Sys, mode: Option<RuntimeMode>, f: ModeFate)
    requires ProcsOk(s)
    ensures var (t, err) := SetRuntimeMode(s, mode, f);
      err == Ok ==> Admitted(s, f) && Switched(s, t, mode) && Known(t) && Mode(t) == Asked(s, mode)
  {
    hide KeepMode, StopAndLand, EnterLongRunning, EnterScaleToZero, FlagScaleToZero, ProcsOk;
    if Admitted(s, f) {
      var before, after := Mode(s), Asked(s, mode);
      FlagOnly(s, after == ScaleToZero);
      var s1 := FlagScaleToZero(s, after == ScaleToZero);
      if before == after {
        KeepModeExactly(s1, mode, after, f);
      } else if after == OnDemand {
        BumpOwns(s1);
        StopAndLandExactly(Bump(s1), s1.row.value, mode, f);
      } else if after == LongRunning {
        EnterLongRunningExactly(s1, mode, before == OnDemand, f);
      } else {
        EnterScaleToZeroExactly(s1, mode, before == OnDemand, f);
      }
    }
  }

  lemma BumpOwns(s: Sys)
    ensures ProcsOk(s) ==> ProcsOk(Bump(s))
  {
  }

  /** What a switch that answers Ok leaves of the process, by the mode it goes to. */
  predicate SwitchedProcess(s: Sys, t: Sys, after: RuntimeMode, f: ModeFate)
    requires Known(s) && t.row.Some?
  {
    match after
    case LongRunning =>
      && (Live(t) <==> Live(s) || (s.row.value.enabled && (Mode(s) != LongRunning || s.row.value.status != Starting)))
      && (Live(s) && Mode(s) != OnDemand ==> Flagged(s, t, false))
    case ScaleToZero =>
      && Flagged(s, t, true)
      && (Mode(s) == LongRunning ==> t.lastActivity == Some(f.now) && t.row.value.enabled == s.row.value.enabled)
      && (Mode(s) == OnDemand ==>
            t.row.value.enabled && t.row.value.status == Stopped && t.row.value.pid == None && t.row.value.addr == "")
    case OnDemand =>
      && t.row.value.enabled && t.row.value.status == Running && t.row.value.pid == None && t.row.value.addr == ""
      && (Mode(s) != OnDemand || Live(s) ==> t.tracked == None)
  }

  /** The tracked process is kept, and knows whether it now scales to zero. */
  predicate Flagged(s: Sys, t: Sys, flag: bool) {
    && t.tracked == s.tracked && |t.heap| == |s.heap|
    && (s.tracked.Some? && s.tracked.value < |s.heap| ==>
          t.heap[s.tracked.value] == s.heap[s.tracked.value].(scaleToZero := flag))
  }

  /** All nine transitions, on Ok. */
  lemma SetModeProcess(s: Sys, mode: Option<RuntimeMode>, f: ModeFate)
    requires ProcsOk(s)
    ensures var (t, err) := SetRuntimeMode(s, mode, f);
      err == Ok ==> Known(s) && t.row.Some? && SwitchedProcess(s, t, Asked(s, mode), f)
  {
    hide KeepMode, StopAndLand, EnterLongRunning, EnterScaleToZero, FlagScaleToZero, ProcsOk;
    if Admitted(s, f) {
      var before, after := Mode(s), Asked(s, mode);
      FlagOnly(s, after == ScaleToZero);
      var s1 := FlagScaleToZero(s, after == ScaleToZero);
      if before == after {
        KeepModeExactly(s1, mode, after, f);
      } else if after == OnDemand {
        BumpOwns(s1);
        StopAndLandExactly(Bump(s1), s1.row.value, mode, f);
      } else if after == LongRunning {
        EnterLongRunningExactly(s1, mode, before == OnDemand, f);
      } else {
        EnterScaleToZeroExactly(s1, mode, before == OnDemand, f);
      }
    }
  }

  /** On an error the row holds the new override in these cases, by the stage that failed, and
      the old one in all others. */
  predicate ErrorKeepsNew(s: Sys, mode: Option<RuntimeMode>, f: ModeFate)
    requires Known(s)
  {
    var before, after := Mode(s), Asked(s, mode);
    if before == after then f.write
    else if after == OnDemand then !CanStop(s, f.stop) && f.land
    else after == LongRunning && f.write && !(f.reread && before == OnDemand && s.row.value.enabled && f.land)
  }

  lemma SetModeErrors(s: Sys, mode: Option<RuntimeMode>, f: ModeFate)
    requires ProcsOk(s)
    ensures var (t, err) := SetRuntimeMode(s, mode, f);
      err != Ok ==> if !Admitted(s, f) then t == s
                    else SameBut(s, t) && t.row.value.mode == if ErrorKeepsNew(s, mode, f) then mode else s.row.value.mode
  {
    hide KeepMode, StopAndLand, EnterLongRunning, EnterScaleToZero, FlagScaleToZero, ProcsOk;
    if Admitted(s, f) {
      var before, after := Mode(s), Asked(s, mode);
      FlagOnly(s, after == ScaleToZero);
      var s1 := FlagScaleToZero(s, after == ScaleToZero);
      if before == after {
        KeepModeExactly(s1, mode, after, f);
      } else if after == OnDemand {
        BumpOwns(s1);
        StopAndLandExactly(Bump(s1), s1.row.value, mode, f);
      } else if after == LongRunning {
        EnterLongRunningExactly(s1, mode, before == OnDemand, f);
      } else {
        EnterScaleToZeroExactly(s1, mode, before == OnDemand, f);
      }
    }
  }

  /** A switch out of on-demand whose start fails leaves nothing tracked behind the row it rolls
      back, whatever was there. */
  lemma FailedSwitchUntracks(s: Sys, mode: Option<RuntimeMode>, f: ModeFate)
    requires ProcsOk(s) && Admitted(s, f) && f.write && f.reread
    requires Mode(s) == OnDemand && Asked(s, mode) == LongRunning && s.row.value.enabled
    ensures SetRuntimeMode(s, mode, f).1 != Ok ==> SetRuntimeMode(s, mode, f).0.tracked == None
  {
    hide StartLocked, RollBackMode, FlagScaleToZero, ProcsOk;
    FlagOnly(s, false);
    var s1 := FlagScaleToZero(s, false);
    StartKeepsSame(Write(s1, s1.row.value.(mode := mode), true), f.start);
    RollBackUntracks(StartLocked(Write(s1, s1.row.value.(mode := mode), true), f.start).0, s1.row.value.mode, f);
  }

  lemma RollBackUntracks(s: Sys, previous: Option<RuntimeMode>, f: ModeFate)
    requires s.row.Some?
    ensures RollBackMode(s, previous, f).tracked == None
  {
    hide StopProcess;
    StopUntracks(s, s.row.value, true, f.stop);
  }

  lemma StopUntracks(s: Sys, row: Row, enabled: bool, f: StopFate)
    ensures StopProcess(s, row, enabled, f).0.tracked == None
  {
  }

  /** Every call of the switch works. */
  predicate SwitchWorks(s: Sys, f: ModeFate) {
    && Admitted(s, f) && f.reread && f.write && f.write2 && f.land && CanStop(s, f.stop) && Reconcile.StartSucceeds(f.start)
  }

  /** Then it answers Ok, unless an on-demand instance has a live process in the way of its start. */
  lemma SetModeWorks(s: Sys, mode: Option<RuntimeMode>, f: ModeFate)
    requires ProcsOk(s) && SwitchWorks(s, f)
    ensures SetRuntimeMode(s, mode, f).1 == Ok <==>
              !(Mode(s) == OnDemand && Asked(s, mode) == LongRunning && s.row.value.enabled && Live(s))
  {
    hide KeepMode, StopAndLand, EnterLongRunning, EnterScaleToZero, FlagScaleToZero, ProcsOk;
    var before, after := Mode(s), Asked(s, mode);
    FlagOnly(s, after == ScaleToZero);
    var s1 := FlagScaleToZero(s, after == ScaleToZero);
    if before == after {
      KeepModeWorks(s1, mode, after, f);
    } else if after == OnDemand {
      BumpOwns(s1);
      StopAndLandExactly(Bump(s1), s1.row.value, mode, f);
    } else if after == LongRunning {
      EnterLongRunningWorks(s1, mode, before == OnDemand, f);
    } else {
      EnterScaleToZeroExactly(s1, mode, before == OnDemand, f);
    }
  }

  lemma KeepModeWorks(s: Sys, mode: Option<RuntimeMode>, after: RuntimeMode, f: ModeFate)
    requires ProcsOk(s) && SwitchWorks(s, f) && after == Asked(s, mode)
    ensures KeepMode(s, mode, after, f).1 == Ok
  {
    hide StartLocked, StopAndLand, ProcsOk;
    var row := s.row.value.(mode := mode);
    RowsDoNotOwn(s, row);
    StartLockedExactly(Write(s, row, true), f.start);
    StopAndLandExactly(Write(s, row, true), row, mode, f);
  }

  lemma EnterLongRunningWorks(s: Sys, mode: Option<RuntimeMode>, fromOnDemand: bool, f: ModeFate)
    requires SwitchWorks(s, f) && Asked(s, mode) == LongRunning
    ensures EnterLongRunning(s, mode, fromOnDemand, f).1 == Ok <==> !(fromOnDemand && s.row.value.enabled && Live(s))
  {
    hide StartLocked, RollBackMode;
    StartLockedExactly(Write(s, s.row.value.(mode := mode), true), f.start);
  }

  // ----- the other operations --------------------------------------------------

  /** A delete that answers Ok has removed the row, and with it the clock and the remembered
      failure; any other leaves a row. */
  lemma DeleteRemoves(s: Sys, f: DeleteFate)
    requires ProcsOk(s)
    ensures var (t, err) := Delete(s, f);
      && (err == Ok <==> f.read && Known(s) && f.remove && ((Mode(s) == OnDemand && !Live(s)) || CanStop(s, f.stop)))
      && (err == Ok ==> t.row == None && t.lastActivity == None && t.startFailure == None && t.generation > s.generation
                        && (t.tracked == None || (t.tracked == s.tracked && !Live(s))))
      && (err != Ok && s.row.Some? ==> t.row.Some?)
  {
    hide StopProcess, ProcsOk, Live;
    if s.row.Some? {
      StopExactly(s, s.row.value, false, f.stop);
      StopBumps(s, s.row.value, false, f.stop);
    }
  }

  /** Shutdown's stop and a park keep Enabled as it is and set it: one restores what ran at the
      next boot, the other at the next call. */
  lemma QuietStopsKeepEnabled(s: Sys, f: StopFate, scannedAt: int, p: ParkFate)
    requires ProcsOk(s) && Known(s)
    ensures ResidentMode(Mode(s)) && f.write ==>
      var t := ShutdownStop(s, true, f).0;
      t.tracked == None && t.row == Some(s.row.value.(status := Stopped, pid := None, addr := ""))
    ensures Parkable(s, scannedAt) && p.read && p.stop.write ==>
      var t := Park(s, scannedAt, p).0;
      t.tracked == None && t.row == Some(s.row.value.(enabled := true, status := Stopped, pid := None, addr := ""))
  {
    hide StopProcess, ProcsOk;
    StopExactly(s, s.row.value, s.row.value.enabled, f);
    StopExactly(s, s.row.value, true, p.stop);
  }

  /** A park reports success exactly for a tracked scale-to-zero instance that no request holds,
      not touched since the scan began, whose stop works. */
  lemma ParkExactly(s: Sys, scannedAt: int, f: ParkFate)
    requires ProcsOk(s)
    ensures Park(s, scannedAt, f).1 <==>
      && f.read && s.tracked.Some? && s.heap[s.tracked.value].refs <= 0
      && (s.lastActivity.None? || s.lastActivity.value <= scannedAt)
      && Known(s) && Mode(s) == ScaleToZero && CanStop(s, f.stop)
    ensures Park(s, scannedAt, f).1 ==> Park(s, scannedAt, f).0.tracked == None && Park(s, scannedAt, f).0.heap[s.tracked.value].reaped
  {
    hide StopProcess, ProcOk;
    if s.row.Some? {
      StopExactly(s, s.row.value, true, f.stop);
    }
  }

  /** EnsureStarted answers Ok exactly for a caller that is still there, on a live process or
      after a start that can be made; the clock is then the request's or the start's. */
  lemma EnsureExactly(s: Sys, f: EnsureFate)
    requires ProcsOk(s)
    ensures var (t, err) := EnsureStarted(s, f);
      && (err == Ok <==>
            !f.goneAtGate && (Live(s) || (Cold(s, f) && CanStart(s, f.start) && !f.goneAfter)))
      && (err == Ok && Live(s) ==> t.tracked == s.tracked && t.lastActivity == Some(f.now) && t.row == s.row)
      && (err == Ok && !Live(s) ==> Runs(t, |s.heap|, f.start.pid) && t.startFailure == None)
  {
    hide StartLocked, ProcsOk;
    StartLockedExactly(s.(startFailure := None, lastActivity := Some(f.now)), f.start);
    TrackedInRange(s);
  }

  /** The request may lead a start: the row is enabled, and no failure is remembered still. */
  predicate Cold(s: Sys, f: EnsureFate) {
    && f.read && s.row.Some? && s.row.value.enabled
    && (s.startFailure.Some? ==> f.now - s.startFailure.value >= START_FAILURE_WINDOW)
  }

  lemma TrackedInRange(s: Sys)
    requires ProcsOk(s)
    ensures s.tracked.Some? ==> s.tracked.value < |s.heap|
  {
  }

  /** A start that fails is remembered: whoever asks within the window is told so at once, and
      nothing is started for them. */
  lemma FailureIsShared(s: Sys, f: EnsureFate, next: EnsureFate)
    requires ProcsOk(s) && !f.goneAtGate && !Live(s) && Cold(s, f) && !CanStart(s, f.start)
    requires !next.goneAtGate && next.read && next.now - f.failedAt < START_FAILURE_WINDOW
    ensures var t := EnsureStarted(s, f).0;
      && t.startFailure == Some(f.failedAt)
      && (!Live(t) && t.row.Some? && t.row.value.enabled ==> EnsureStarted(t, next) == (t, StartError))
  {
    hide StartLocked, ProcsOk;
    StartLockedExactly(s.(startFailure := None, lastActivity := Some(f.now)), f.start);
  }

  lemma RenameWrites(s: Sys, name: string)
    requires s.row.Some?
    ensures var t := Rename(s, name, true); t == s.(row := Some(s.row.value.(name := name)))
  {
  }

  // ----- create or converge ----------------------------------------------------

  /** A create or sync that finds a row to change and writes it. */
  predicate Syncs(s: Sys, req: CreateRequest, f: CreateFate) {
    && Known(s) && req.service in s.services && f.valid && f.file && f.write
    && !Unchanged(s, s.row.value, req, s.services[req.service])
  }

  function ModeAfter(s: Sys, req: CreateRequest): RuntimeMode
    requires req.service in s.services
  {
    EffectiveRuntimeMode(s.services[req.service], req.mode)
  }

  predicate HasContent(row: Row, req: CreateRequest) {
    row.service == req.service && row.config == req.config && row.secret == req.secret && row.mode == req.mode
  }

  /** The state the tail of a sync works on: the merged row is written and the process flagged. */
  lemma MergedState(s: Sys, req: CreateRequest)
    requires ProcsOk(s) && Known(s) && req.service in s.services
    ensures var merged := Merged(s, s.row.value, req, s.services[req.service]);
      var t := FlagScaleToZero(Write(s, merged, true), ModeAfter(s, req) == ScaleToZero);
      && ProcsOk(t) && Known(t) && Mode(t) == ModeAfter(s, req) && HasContent(t.row.value, req) && t.row == Some(merged)
      && merged.enabled == s.row.value.enabled
      && t.tracked == s.tracked && |t.heap| == |s.heap| && (Live(t) <==> Live(s)) && t.cancelled == s.cancelled
      && t.generation == s.generation && t.services == s.services && Flagged(s, t, ModeAfter(s, req) == ScaleToZero)
  {
    var merged := Merged(s, s.row.value, req, s.services[req.service]);
    RowsDoNotOwn(s, merged);
    FlagOnly(Write(s, merged, true), ModeAfter(s, req) == ScaleToZero);
  }

  /** Changed content reaches a live resident instance: it is restarted under the new row. */
  lemma SyncReloads(s: Sys, req: CreateRequest, f: CreateFate)
    requires ProcsOk(s) && Syncs(s, req, f) && Mode(s) != OnDemand && ModeAfter(s, req) != OnDemand
    requires ContentChanged(s.row.value, req, s.services[req.service]) && s.row.value.enabled && Live(s) && !f.restart.exit
    requires f.restart.read && CanStop(s, f.restart.stop) && !s.cancelled && Reconcile.StartSucceeds(f.restart.start)
    ensures var (t, err) := CreateInstance(s, req, f);
      err == Ok && Restarted(s, t, f.restart) && HasContent(t.row.value, req)
  {
    hide RestartLocked, FlagScaleToZero, ProcsOk, Runs, Live;
    MergedState(s, req);
    var merged := Merged(s, s.row.value, req, s.services[req.service]);
    var s1 := FlagScaleToZero(Write(s, merged, true), ModeAfter(s, req) == ScaleToZero);
    RestartLockedWorks(s1, true, f.restart);
  }

  /** The resident instance a sync must bring up: it comes from on-demand; or from a cold
      scale-to-zero; or its content changed and the old content had failed. */
  predicate ToBringUp(s: Sys, req: CreateRequest)
    requires Known(s) && req.service in s.services
  {
    && s.row.value.enabled && ModeAfter(s, req) == LongRunning && !Live(s)
    && match Mode(s)
       case OnDemand => true
       case ScaleToZero => s.row.value.pid == None
       case LongRunning =>
         && s.row.value.pid == None && ContentChanged(s.row.value, req, s.services[req.service])
         && (s.row.value.status == Failed || s.row.value.status == Degraded)
  }

  lemma SyncBringsUp(s: Sys, req: CreateRequest, f: CreateFate)
    requires ProcsOk(s) && Syncs(s, req, f) && ToBringUp(s, req) && !s.cancelled && Reconcile.StartSucceeds(f.start)
    ensures var (t, err) := CreateInstance(s, req, f);
      err == Ok && Runs(t, |s.heap|, f.start.pid) && HasContent(t.row.value, req)
  {
    hide StartLocked, FlagScaleToZero, ProcsOk, Runs, Live;
    MergedState(s, req);
    var merged := Merged(s, s.row.value, req, s.services[req.service]);
    var s1 := FlagScaleToZero(Write(s, merged, true), ModeAfter(s, req) == ScaleToZero);
    StartLockedExactly(s1, f.start);
  }

  /** A sync that only turns a live long-running instance scale-to-zero keeps its process, gives
      it a fresh clock, and lets it be parked. */
  lemma SyncKeepsWarm(s: Sys, req: CreateRequest, f: CreateFate)
    requires ProcsOk(s) && Syncs(s, req, f) && Mode(s) == LongRunning && ModeAfter(s, req) == ScaleToZero
    requires !ContentChanged(s.row.value, req, s.services[req.service]) && s.row.value.enabled && Live(s)
    ensures var (t, err) := CreateInstance(s, req, f);
      err == Ok && Flagged(s, t, true) && t.lastActivity == Some(f.now) && t.row.Some? && HasContent(t.row.value, req)
  {
    hide FlagScaleToZero, ProcsOk, Live;
    MergedState(s, req);
  }

  /** The scale-to-zero instance a sync must leave cold: it comes from on-demand, or its content
      changed and the old content had failed. */
  predicate ToCool(s: Sys, req: CreateRequest)
    requires Known(s) && req.service in s.services
  {
    && ModeAfter(s, req) == ScaleToZero
    && match Mode(s)
       case OnDemand => true
       case ScaleToZero =>
         && !Live(s) && s.row.value.pid == None && ContentChanged(s.row.value, req, s.services[req.service])
         && s.row.value.enabled && (s.row.value.status == Failed || s.row.value.status == Degraded)
       case LongRunning => false
  }

  /** It is cold then, and enabled as it was. */
  lemma SyncEntersCold(s: Sys, req: CreateRequest, f: CreateFate)
    requires ProcsOk(s) && Syncs(s, req, f) && ToCool(s, req) && f.write2
    ensures var (t, err) := CreateInstance(s, req, f);
      && err == Ok && t.row.Some? && HasContent(t.row.value, req) && t.row.value.enabled == s.row.value.enabled
      && t.row.value.status == Stopped && t.row.value.pid == None && t.row.value.addr == "" && |t.heap| == |s.heap|
  {
    hide FlagScaleToZero, ProcsOk, Live;
    MergedState(s, req);
  }

  /** A repeated request mends a row that failed: a long-running one is started, a
      scale-to-zero one is made cold for the next call. */
  lemma RepeatMends(s: Sys, req: CreateRequest, f: CreateFate)
    requires ProcsOk(s) && f.valid && req.service in s.services && s.row.Some?
    requires Unchanged(s, s.row.value, req, s.services[req.service])
    requires s.row.value.enabled && s.row.value.status == Failed && !Live(s)
    ensures ModeAfter(s, req) == LongRunning && !s.cancelled && Reconcile.StartSucceeds(f.start) ==>
      var (t, err) := CreateInstance(s, req, f); err == Ok && Runs(t, |s.heap|, f.start.pid)
    ensures ModeAfter(s, req) == ScaleToZero && f.write ==>
      var (t, err) := CreateInstance(s, req, f);
      err == Ok && t == s.(row := Some(s.row.value.(status := Stopped, pid := None, addr := "")))
  {
    hide StartLocked, Runs;
    StartLockedExactly(s, f.start);
  }

  /** A new instance: started if asked and long-running; otherwise stopped, and enabled unless a
      long-running one was not to be started; an on-demand one is served at once. */
  lemma CreateMakes(s: Sys, req: CreateRequest, f: CreateFate)
    requires s.row.None? && f.valid && f.file && f.write && req.service in s.services && !Live(s) && !s.cancelled
    ensures var (t, err) := CreateInstance(s, req, f);
      && t.row.Some? && HasContent(t.row.value, req)
      && (req.start && ModeAfter(s, req) == LongRunning && Reconcile.StartSucceeds(f.start) ==>
            err == Ok && Runs(t, |s.heap|, f.start.pid))
      && (!(req.start && ModeAfter(s, req) == LongRunning) ==>
            && err == Ok && t.heap == s.heap && t.row.value.pid == None && t.row.value.addr == ""
            && (t.row.value.enabled <==> req.start || ModeAfter(s, req) != LongRunning)
            && t.row.value.status == if ModeAfter(s, req) == OnDemand then Running else Stopped)
  {
    hide StartLocked, Runs;
    var svc, mode := s.services[req.service], ModeAfter(s, req);
    var start := req.start && mode == LongRunning;
    var row := Row(req.service, RequestName(s, req), svc.nodeEntry, req.config, req.secret, req.mode,
                   req.start || mode != LongRunning,
                   if mode == OnDemand then Running else if start then Starting else Stopped, None, "");
    WriteLive(s, row);
    StartLockedExactly(Write(s, row, true), f.start);
    Intent.StartLockedKeepsRow(Write(s, row, true), f.start);
  }

  lemma WriteLive(s: Sys, row: Row)
    ensures Live(Write(s, row, true)) <==> Live(s)
  {
  }

  // ----- an import's step ------------------------------------------------------

  /** After a service becomes scale-to-zero: a live instance is restarted under the new mode, a
      cold one has a cold row. */
  lemma ApplyReloads(s: Sys, f: ApplyFate)
    requires ProcsOk(s) && !s.cancelled && f.read && Known(s) && Mode(s) == ScaleToZero
    ensures Live(s) && !f.restart.exit && s.row.value.enabled && CanRestart(s, f.restart) ==>
      ApplyServiceRuntimeMode(s, f).1 == Ok && Restarted(s, ApplyServiceRuntimeMode(s, f).0, f.restart)
    ensures !Live(s) && f.write ==>
      var (t, err) := ApplyServiceRuntimeMode(s, f);
      err == Ok && t.heap == s.heap && t.row == Some(s.row.value.(status := Stopped, pid := None, addr := ""))
  {
    hide RestartLocked, ProcsOk, Runs;
    BumpOwns(s);
    if Live(s) && !f.restart.exit {
      RestartLockedWorks(Bump(s), s.row.value.enabled, f.restart);
    }
  }

  /** A watcher whose process is no longer tracked, whose row is disabled or names another pid,
      or that Shutdown overtook, leaves the row alone and arms nothing. */
  lemma WatcherStandsDown(s: Sys, h: nat, f: WakeFate)
    requires h < |s.heap| && s.heap[h].watcher == AtGate
    requires s.tracked != Some(h) || s.cancelled || (s.row.Some? && !s.row.value.enabled)
             || (s.row.Some? && s.row.value.pid.Some? && s.row.value.pid.value != s.heap[h].pid)
    ensures var t := Next(s, DoWake(h, f));
      && t.row == s.row && t.timers == s.timers && t.wg == s.wg - 1 && t.heap[h].watcher == Finished
      && t.tracked == (if s.tracked == Some(h) then None else s.tracked)
  {
  }

  lemma TouchRefreshes(s: Sys, now: int)
    ensures var t := Next(s, DoTouch(now));
      t == s.(lastActivity := t.lastActivity) && t.lastActivity == (if s.tracked.Some? then Some(now) else s.lastActivity)
  {
  }

  /** A scale-to-zero instance that was started counts as warm, and no request holds it yet. */
  lemma StartedIsWarm(s: Sys, f: StartFate)
    requires CanStart(s, f)
    ensures var t := StartLocked(s, f).0;
      && (Fleet.Warm(t) <==> Mode(s) == ScaleToZero)
      && (Fleet.Warm(t) ==> Fleet.Refs(t) == 0 && t.lastActivity == Some(f.now))
  {
    hide StartLocked;
    StartLockedExactly(s, f);
  }
}
