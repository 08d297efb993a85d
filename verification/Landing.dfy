/** An effectively on-demand instance rests enabled and running with no process - except for
    one window, which is characterised exactly. */
module Landing {
  import opened Domain
  import opened Lifecycle
  import opened Operations
  import opened Machine
  import opened Ownership
  import opened Agreement

  predicate Resting(row: Row) {
    row.enabled && row.status == Running && row.pid == None && row.addr == ""
  }

  /** No backoff timer could still act on this id. */
  predicate NoTimerMatches(s: Sys) {
    forall i :: 0 <= i < |s.timers| && s.timers[i].pending ==> s.timers[i].generation != s.generation
  }

  predicate Settled(s: Sys) {
    && (s.row.None? ==> s.tracked == None && NoTimerMatches(s))
    && (Known(s) && Mode(s) == OnDemand ==> s.tracked == None && Resting(s.row.value) && NoTimerMatches(s))
  }

  /** All the row and config writes of a step land. */
  predicate StoreOk(step: Step) {
    match step
    case DoSetMode(_, f) => f.write && f.write2 && f.land && f.stop.write
    case DoApplyMode(f) => f.write && f.land && f.stop.write
    case DoCreate(_, f) => f.file && f.write && f.write2 && f.rollback && f.land && f.stop.write
    case _ => true
  }

  /**
   * The window: the tracked process has exited, its watcher is still queued for the gate,
   * and an earlier operation already cleared the row's pid. CreateInstance then takes the
   * instance for cold and keeps the entry.
   */
  predicate LeftEntry(s: Sys) {
    s.tracked.Some? && !Live(s) && s.row.Some? && s.row.value.pid == None
  }

  predicate MissesEntry(s: Sys, step: Step) {
    && step.DoCreate? && step.create.valid && LeftEntry(s)
    && Known(s) && step.req.service in s.services && Mode(s) != OnDemand
    && EffectiveRuntimeMode(s.services[step.req.service], step.req.mode) == OnDemand
  }

  /** Row and services place the instance in the same mode. */
  predicate Placed(s: Sys, t: Sys) {
    && t.services == s.services
    && (s.row.Some? <==> t.row.Some?)
    && (s.row.Some? ==> t.row.value.service == s.row.value.service && t.row.value.mode == s.row.value.mode)
  }

  /** What a step must leave behind for the instance to count as settled. */
  predicate Cold(s: Sys) {
    s.tracked == None && NoTimerMatches(s)
  }

  lemma BumpedTimers(o: Sys, s: Sys, t: Sys)
    requires Inv(o, s) && t.timers == s.timers && t.generation > s.generation
    ensures NoTimerMatches(t)
  {
  }

  lemma StopColds(o: Sys, s: Sys, row: Row, enabled: bool, f: StopFate)
    requires Inv(o, s)
    ensures var t := StopProcess(s, row, enabled, f).0; Cold(t) && t.services == s.services
    ensures s.row == Some(row) ==> Placed(s, StopProcess(s, row, enabled, f).0)
  {
    StopPlaced(s, row, enabled, f);
    hide StopProcess, NoTimerMatches, Placed;
    InvTracked(o, s);
    StopShape(s, row, enabled, f);
    BumpedTimers(o, s, StopProcess(s, row, enabled, f).0);
    hide Inv;
  }

  lemma StopPlaced(s: Sys, row: Row, enabled: bool, f: StopFate)
    ensures s.row == Some(row) ==> Placed(s, StopProcess(s, row, enabled, f).0)
  {
    hide SignalAndWait;
    SignalKeepsRow(Untrack(s), if s.tracked.Some? then s.tracked.value else 0, f);
  }

  lemma SignalKeepsRow(s: Sys, h: nat, f: StopFate)
    ensures var t := SignalAndWait(s, h, f).0; t.row == s.row && t.services == s.services
  {
  }

  lemma RegisterPlaced(s: Sys, row: Row, p: Proc, f: StartFate)
    requires s.row == Some(row)
    ensures Placed(s, Register(s, row, p, f).0)
  {
  }

  lemma StartPlaced(s: Sys, attempt: nat, g: nat, f: StartFate)
    ensures Placed(s, StartWithAttempt(s, attempt, g, f).0)
    ensures Known(s) && Mode(s) == OnDemand ==>
      StartWithAttempt(s, attempt, g, f).0 == s && StartWithAttempt(s, attempt, g, f).1 != Ok
    ensures s.row.None? ==> StartWithAttempt(s, attempt, g, f).0 == s
  {
    hide Register;
    if !s.cancelled && Known(s) && f.spawn && f.announce {
      var running := s.row.value.(enabled := true, status := Running, addr := "127.0.0.1:" + f.port, pid := Some(f.pid));
      var p := NewProc(f.pid, attempt, g, Mode(s) == ScaleToZero);
      RegisterPlaced(CancelIf(Write(s, running, true), f.cancelEarly), running, p, f);
    }
  }

  /** A start moves nothing between modes, and does nothing at all to an on-demand instance
      but use up a generation. */
  lemma StartSettles(o: Sys, s: Sys, f: StartFate)
    requires Inv(o, s) && Settled(s)
    ensures var t := StartLocked(s, f).0; Settled(t) && Placed(s, t)
  {
    hide StartWithAttempt;
    StartPlaced(Bump(s), 0, s.generation + 1, f);
    BumpedTimers(o, s, Bump(s));
    hide Inv;
  }

  /** A failed start from a cold state leaves a cold state. */
  lemma FailedStartCold(o: Sys, s: Sys, f: StartFate)
    requires Inv(o, s) && s.tracked == None && StartLocked(s, f).1 != Ok
    ensures Cold(StartLocked(s, f).0) && Placed(s, StartLocked(s, f).0)
  {
    hide StartWithAttempt;
    StartShape(Bump(s), 0, s.generation + 1, f);
    StartPlaced(Bump(s), 0, s.generation + 1, f);
    BumpedTimers(o, s, StartLocked(s, f).0);
    hide Inv;
  }

  lemma StopThenStartSettles(o: Sys, s: Sys, wasEnabled: bool, f: RestartFate)
    requires Inv(o, s) && Known(s) && Mode(s) != OnDemand
    ensures var t := StopThenStart(s, wasEnabled, f).0; Settled(t) && Placed(s, t)
  {
    hide StopProcess, StartLocked, Inv, NoTimerMatches;
    var s1 := StopProcess(s, s.row.value, wasEnabled, f.stop).0;
    StopColds(o, s, s.row.value, wasEnabled, f.stop);
    StopKeeps(o, s, s.row.value, wasEnabled, f.stop);
    StartSettles(o, s1, f.start);
  }

  lemma ExitTrackedSettles(o: Sys, s: Sys, b: bool)
    requires Inv(o, s) && Settled(s)
    ensures var t := ExitTracked(s, b); Inv(o, t) && Settled(t)
  {
    if b && s.tracked.Some? {
      ReapKeeps(o, s, s.tracked.value);
    }
  }

  lemma RestartLockedSettles(o: Sys, s: Sys, wasEnabled: bool, f: RestartFate)
    requires Inv(o, s) && Settled(s)
    ensures var t := RestartLocked(s, wasEnabled, f).0; Settled(t) && Placed(s, t)
  {
    hide StopThenStart, Inv;
    var s0 := ExitTracked(s, f.exit);
    ExitTrackedSettles(o, s, f.exit);
    if Known(s0) && Mode(s0) != OnDemand {
      StopThenStartSettles(o, s0, wasEnabled, f);
    }
  }

  lemma StopAndLandSettles(o: Sys, s: Sys, row: Row, mode: Option<RuntimeMode>, f: ModeFate)
    requires Inv(o, s) && s.row == Some(row) && Known(s) && Settled(s) && f.land && f.write2 && f.stop.write
    requires f.reread || Mode(s) != OnDemand
    ensures Settled(StopAndLand(s, row, mode, f).0)
  {
    hide StopProcess, Inv, NoTimerMatches;
    var s1 := StopProcess(s, row, true, f.stop).0;
    StopColds(o, s, row, true, f.stop);
    LandSame(s1, mode, f.land);
    LandSame(s1, mode, f.write2);
  }

  lemma KeepModeSettles(o: Sys, s: Sys, mode: Option<RuntimeMode>, after: RuntimeMode, f: ModeFate)
    requires Inv(o, s) && Settled(s) && Known(s) && after == Mode(s)
    requires after == EffectiveRuntimeMode(s.services[s.row.value.service], mode)
    ensures Settled(KeepMode(s, mode, after, f).0)
  {
    hide StartLocked, StopAndLand;
    var s1 := Write(s, s.row.value.(mode := mode), true);
    SoftKeeps(o, s, s1);
    StartSettles(o, s1, f.start);
    hide Inv;
  }

  lemma RollBackSettles(o: Sys, s: Sys, previous: Option<RuntimeMode>, f: ModeFate)
    requires Inv(o, s) && Cold(s) && Known(s) && f.land
    ensures Settled(RollBackMode(s, previous, f))
  {
    hide StopProcess, Inv, NoTimerMatches;
    StopColds(o, s, s.row.value, true, f.stop);
    LandSame(s, previous, f.land);
    LandSame(StopProcess(s, s.row.value, true, f.stop).0, previous, f.land);
  }

  lemma EnterLongRunningSettles(o: Sys, s: Sys, mode: Option<RuntimeMode>, f: ModeFate)
    requires Inv(o, s) && Settled(s) && Known(s) && f.land
    requires EffectiveRuntimeMode(s.services[s.row.value.service], mode) == LongRunning
    ensures Settled(EnterLongRunning(s, mode, Mode(s) == OnDemand, f).0)
  {
    hide Inv, StartLocked, RollBackMode, NoTimerMatches;
    var s1 := Write(s, s.row.value.(mode := mode), true);
    SoftKeeps(o, s, s1);
    SameTimers(s, s1);
    StartSettles(o, s1, f.start);
    StartLockedKeeps(o, s1, f.start);
    if Mode(s) == OnDemand && StartLocked(s1, f.start).1 != Ok {
      FailedStartCold(o, s1, f.start);
      RollBackSettles(o, StartLocked(s1, f.start).0, s.row.value.mode, f);
    }
  }

  lemma SameTimers(s: Sys, t: Sys)
    requires t.timers == s.timers && t.generation == s.generation
    ensures NoTimerMatches(t) <==> NoTimerMatches(s)
  {
  }

  lemma FlagSettled(s: Sys, flag: bool)
    requires Settled(s)
    ensures var t := FlagScaleToZero(s, flag);
      Settled(t) && t.row == s.row && t.services == s.services && t.generation == s.generation && t.cancelled == s.cancelled
  {
  }

  lemma EnterOnDemandSettles(o: Sys, s: Sys, mode: Option<RuntimeMode>, f: ModeFate)
    requires Inv(o, s) && Known(s) && Mode(s) != OnDemand && f.land && f.write2 && f.stop.write
    ensures Settled(EnterOnDemand(s, mode, f).0)
  {
    SoftKeeps(o, s, Bump(s));
    hide Inv, StopAndLand;
    StopAndLandSettles(o, Bump(s), s.row.value, mode, f);
  }

  lemma SetModeSettles(o: Sys, s: Sys, mode: Option<RuntimeMode>, f: ModeFate)
    requires Inv(o, s) && Settled(s) && StoreOk(DoSetMode(mode, f))
    ensures Settled(SetRuntimeMode(s, mode, f).0)
  {
    hide KeepMode, EnterLongRunning, EnterOnDemand, FlagScaleToZero, Inv;
    if !s.cancelled && Known(s) {
      var after := EffectiveRuntimeMode(s.services[s.row.value.service], mode);
      var s1 := FlagScaleToZero(s, after == ScaleToZero);
      FlagKeeps(o, s, after == ScaleToZero);
      FlagSettled(s, after == ScaleToZero);
      if Mode(s) == after {
        KeepModeSettles(o, s1, mode, after, f);
      } else if after == OnDemand {
        EnterOnDemandSettles(o, s1, mode, f);
      } else if after == LongRunning {
        EnterLongRunningSettles(o, s1, mode, f);
      }
    }
  }

  lemma ApplyModeSettles(o: Sys, s: Sys, f: ApplyFate)
    requires Inv(o, s) && Settled(s) && StoreOk(DoApplyMode(f))
    ensures Settled(ApplyServiceRuntimeMode(s, f).0)
  {
    hide RestartLocked, StopProcess, Inv, NoTimerMatches, Live;
    if Known(s) {
      BumpedTimers(o, s, Bump(s));
      SoftKeeps(o, s, Bump(s));
      RestartLockedSettles(o, Bump(s), s.row.value.enabled, f.restart);
      StopColds(o, Bump(s), s.row.value, s.row.value.enabled, f.stop);
      ColdStaysCold(s);
    }
  }

  lemma ColdStaysCold(s: Sys)
    ensures s.tracked == None ==> !Live(Bump(s))
  {
  }

  // ----- create ----------------------------------------------------------------

  lemma CreateNewSettles(o: Sys, s: Sys, req: CreateRequest, f: CreateFate)
    requires Inv(o, s) && Settled(s) && s.row.None? && req.service in s.services
    ensures Settled(CreateNew(s, req, f).0)
  {
    hide StartLocked, Inv, NoTimerMatches;
    var svc := s.services[req.service];
    var mode := EffectiveRuntimeMode(svc, req.mode);
    var start := req.start && mode == LongRunning;
    var row := Row(req.service, RequestName(s, req), svc.nodeEntry, req.config, req.secret, req.mode,
                   req.start || mode != LongRunning,
                   if mode == OnDemand then Running else if start then Starting else Stopped, None, "");
    SoftKeeps(o, s, Write(s, row, true));
    SameTimers(s, Write(s, row, true));
    if start {
      StartSettles(o, Write(s, row, true), f.start);
    }
  }

  lemma CreateNoopSettles(o: Sys, s: Sys, req: CreateRequest, f: CreateFate)
    requires Inv(o, s) && Settled(s) && s.row.Some? && req.service == s.row.value.service && Known(s)
    ensures Settled(CreateNoop(s, req, f).0)
  {
    hide StartLocked, Inv, NoTimerMatches, Live;
    StartSettles(o, s, f.start);
    LandSame(s, s.row.value.mode, f.land);
    SameTimers(s, Write(s, ColdRow(s.row.value), true));
  }

  lemma LandSame(s: Sys, mode: Option<RuntimeMode>, ok: bool)
    ensures var t := Land(s, mode, ok).0;
      t.tracked == s.tracked && t.services == s.services && (NoTimerMatches(t) <==> NoTimerMatches(s))
  {
  }

  lemma ConvergeSettles(o: Sys, s: Sys, row: Row, merged: Row, before: RuntimeMode, after: RuntimeMode,
                        tracked: bool, contentChanged: bool, f: CreateFate)
    requires Inv(o, s) && s.row == Some(merged) && Known(s) && after == Mode(s) && Settled(s)
    requires before == OnDemand ==> Cold(s) && row.pid == None
    requires before != after ==> after != OnDemand
    ensures Settled(Converge(s, row, merged, before, after, tracked, contentChanged, f).0)
  {
    hide Inv, ConvergeOnDemand, LeaveOnDemand, StartLocked, RestartLocked, NoTimerMatches, Settled;
    if before == after && after == OnDemand {
      StaysOnDemandSettles(s, row, merged, f);
    } else if before == OnDemand {
      LeaveOnDemandSettles(o, s, row, merged, after, f);
    } else {
      StartSettles(o, s, f.start);
      RestartLockedSettles(o, s, merged.enabled, f.restart);
      ResidentSettled(s, Write(s, ColdRow(merged), true));
      ResidentSettled(s, s.(lastActivity := Some(f.now)));
    }
  }

  /** Nothing is asked of an instance that is not on-demand. */
  lemma ResidentSettled(s: Sys, t: Sys)
    requires Known(t) && Mode(t) != OnDemand
    ensures Settled(t)
  {
  }

  lemma StaysOnDemandSettles(s: Sys, row: Row, merged: Row, f: CreateFate)
    requires s.row == Some(merged) && Known(s) && Mode(s) == OnDemand && Settled(s) && Cold(s) && row.pid == None
    ensures Settled(ConvergeOnDemand(s, row, merged, f).0)
  {
    hide NoTimerMatches;
    LandSame(s, merged.mode, f.land);
  }

  lemma LeaveOnDemandSettles(o: Sys, s: Sys, row: Row, merged: Row, after: RuntimeMode, f: CreateFate)
    requires Inv(o, s) && s.row == Some(merged) && Known(s) && Mode(s) == after != OnDemand && Settled(s) && Cold(s)
    ensures Settled(LeaveOnDemand(s, row, merged, after, f).0)
  {
    hide Inv, StartLocked, NoTimerMatches;
    StartSettles(o, s, f.start);
    if StartLocked(s, f.start).1 != Ok {
      FailedStartCold(o, s, f.start);
      var t := StartLocked(s, f.start).0;
      SameTimers(t, Write(t, LandedRow(merged, row.mode), true));
    }
  }

  lemma CommitSettles(s: Sys, merged: Row, f: CreateFate)
    requires NoTimerMatches(s) && merged.service in s.services && f.file && f.write && f.land
    requires EffectiveRuntimeMode(s.services[merged.service], merged.mode) == OnDemand
    ensures Settled(CommitMerged(s, merged, f).0) <==> s.tracked == None
  {
  }

  /** A switch into on-demand settles exactly when it finds no left entry. */
  lemma CreateIntoOnDemandSettles(o: Sys, s: Sys, req: CreateRequest, f: CreateFate)
    requires Inv(o, s) && Known(s) && req.service in s.services && Mode(s) != OnDemand
    requires EffectiveRuntimeMode(s.services[req.service], req.mode) == OnDemand
    requires StoreOk(DoCreate(req, f))
    ensures Settled(CreateChanged(s, req, f).0) <==> !LeftEntry(s)
  {
    hide SwitchToOnDemand, Inv, Settled, Live;
    var row := s.row.value;
    SwitchSettles(o, s, row, Merged(s, row, req, s.services[req.service]), f);
  }

  lemma SwitchSettles(o: Sys, s: Sys, row: Row, merged: Row, f: CreateFate)
    requires Inv(o, s) && s.row == Some(row) && merged.service in s.services
    requires EffectiveRuntimeMode(s.services[merged.service], merged.mode) == OnDemand
    requires f.file && f.write && f.land && f.stop.write
    ensures Settled(SwitchToOnDemand(s, row, merged, f).0) <==> !LeftEntry(s)
  {
    hide StopProcess, CommitMerged, Inv, NoTimerMatches;
    SoftKeeps(o, s, Bump(s));
    BumpedTimers(o, s, Bump(s));
    if Live(s) || row.pid.Some? {
      var s1 := StopProcess(Bump(s), row, true, f.stop).0;
      StopColds(o, Bump(s), row, true, f.stop);
      CommitSettles(s1, merged, f);
      SameTimers(s1, Write(s1, LandedRow(merged, merged.mode), true));
    } else {
      CommitSettles(Bump(s), merged, f);
    }
  }

  lemma CreateSettles(o: Sys, s: Sys, req: CreateRequest, f: CreateFate)
    requires Inv(o, s) && Settled(s) && (s.row.Some? ==> Known(s)) && StoreOk(DoCreate(req, f))
    ensures Settled(CreateInstance(s, req, f).0) <==> !MissesEntry(s, DoCreate(req, f))
  {
    hide CreateNew, CreateNoop, CreateChanged, Inv, Settled, LeftEntry;
    if f.valid && req.service in s.services {
      if s.row.None? {
        CreateNewSettles(o, s, req, f);
      } else if Unchanged(s, s.row.value, req, s.services[req.service]) {
        CreateNoopSettles(o, s, req, f);
      } else if EffectiveRuntimeMode(s.services[req.service], req.mode) == OnDemand && Mode(s) != OnDemand {
        CreateIntoOnDemandSettles(o, s, req, f);
      } else {
        CreateElsewhereSettles(o, s, req, f);
      }
    }
  }

  lemma CreateElsewhereSettles(o: Sys, s: Sys, req: CreateRequest, f: CreateFate)
    requires Inv(o, s) && Settled(s) && Known(s) && req.service in s.services
    requires EffectiveRuntimeMode(s.services[req.service], req.mode) == OnDemand ==> Mode(s) == OnDemand
    ensures Settled(CreateChanged(s, req, f).0)
  {
    hide Converge, Inv, Live, NoTimerMatches, FlagScaleToZero;
    var svc, row := s.services[req.service], s.row.value;
    var merged := Merged(s, row, req, svc);
    var after := EffectiveRuntimeMode(svc, req.mode);
    var w := Write(s, merged, true);
    SoftKeeps(o, s, w);
    SameTimers(s, w);
    FlagKeeps(o, w, after == ScaleToZero);
    FlagPlaced(w, after == ScaleToZero);
    ConvergeSettles(o, FlagScaleToZero(w, after == ScaleToZero), row, merged, Mode(s), after,
                    Live(s), ContentChanged(row, req, svc), f);
  }

  lemma FlagPlaced(s: Sys, flag: bool)
    ensures var t := FlagScaleToZero(s, flag);
      && t.row == s.row && t.services == s.services && t.tracked == s.tracked && (NoTimerMatches(t) <==> NoTimerMatches(s))
  {
  }

  // ----- every step ------------------------------------------------------------

  lemma DeleteSettles(o: Sys, s: Sys, f: DeleteFate)
    requires Inv(o, s) && Settled(s)
    ensures Settled(Delete(s, f).0)
  {
    hide StopProcess, Inv, NoTimerMatches;
    if Known(s) {
      var s1 := StopProcess(s, s.row.value, false, f.stop).0;
      StopColds(o, s, s.row.value, false, f.stop);
      StopKeeps(o, s, s.row.value, false, f.stop);
      BumpedTimers(o, s, Forget(s.(row := None)));
      BumpedTimers(o, s1, Forget(s1.(row := None)));
    }
  }

  lemma UpdateSettles(o: Sys, s: Sys, step: Step)
    requires Inv(o, s) && Settled(s) && step.DoUpdate?
    ensures Settled(Next(s, step))
  {
    hide RestartLocked, Inv, NoTimerMatches;
    if Known(s) {
      var s1 := Write(s, Edited(s.row.value, step.edit), true);
      SoftKeeps(o, s, s1);
      SameTimers(s, s1);
      RestartLockedSettles(o, s1, s1.row.value.enabled, step.restart);
    }
  }

  lemma ControlSettles(o: Sys, s: Sys, step: Step)
    requires Inv(o, s) && Settled(s)
    requires step.DoStart? || step.DoStop? || step.DoRestart? || step.DoRestartIfWarm? || step.DoShutdownStop? || step.DoPark?
    ensures Settled(Next(s, step))
  {
    hide StopThenStart, RestartLocked, StopProcess, StartLocked, Inv;
    match step
    case DoStart(f) => StartSettles(o, s, f);
    case DoStop(_, f) => if Known(s) { StopColds(o, s, s.row.value, false, f); }
    case DoRestart(f) => if Known(s) && Mode(s) != OnDemand { StopThenStartSettles(o, s, s.row.value.enabled, f); }
    case DoRestartIfWarm(_, f) => if Known(s) { RestartLockedSettles(o, s, s.row.value.enabled, f); }
    case DoShutdownStop(_, f) => if Known(s) { StopColds(o, s, s.row.value, s.row.value.enabled, f); }
    case DoPark(_, f) => if Known(s) { StopColds(o, s, s.row.value, true, f.stop); }
  }

  /** Refs, clocks and remembered failures do not unsettle. */
  lemma SettledSoft(s: Sys, t: Sys)
    requires Settled(s)
    requires t.row == s.row && t.services == s.services && t.tracked == s.tracked
    requires t.timers == s.timers && t.generation == s.generation
    ensures Settled(t)
  {
  }

  lemma EnsureSettles(o: Sys, s: Sys, f: EnsureFate)
    requires Inv(o, s) && Settled(s)
    ensures Settled(EnsureStarted(s, f).0)
  {
    hide StartLocked, Inv, Settled;
    var s0 := s.(startFailure := None, lastActivity := Some(f.now));
    SoftKeeps(o, s, s0);
    SettledSoft(s, s0);
    StartSettles(o, s0, f.start);
    var s1 := StartLocked(s0, f.start).0;
    SettledSoft(s1, s1.(startFailure := Some(f.failedAt)));
    SettledSoft(s1, TakeRef(s1.(startFailure := None)));
    SettledSoft(s, TakeRef(s.(lastActivity := Some(f.now))));
  }

  lemma WakeSettles(s: Sys, h: nat, f: WakeFate)
    requires Settled(s) && (s.row.Some? ==> Known(s))
    ensures Settled(Wake(s, h, f))
  {
  }

  lemma TimerSettles(s: Sys, i: nat, f: TimerFate)
    requires Settled(s) && (s.row.Some? ==> Known(s))
    ensures Settled(TimerFire(s, i, f))
  {
    hide StartWithAttempt;
    if i < |s.timers| && s.timers[i].pending {
      StartPlaced(Disarm(s, i), s.timers[i].attempt, s.timers[i].generation, f.start);
    }
  }

  lemma SurplusSettles(o: Sys, s: Sys, f: ReconcileFate)
    requires Inv(o, s) && Settled(s)
    ensures Settled(ReconcileSurplus(s, f).0)
  {
    if Known(s) {
      StopColds(o, s, s.row.value, s.row.value.enabled, f.stop);
    }
    hide StopProcess, Inv;
  }

  lemma RepairSettles(o: Sys, s: Sys, step: Step)
    requires Inv(o, s) && Settled(s) && (step.DoStale? || step.DoMissing?)
    ensures Settled(Next(s, step))
  {
    hide Next, Inv, Settled;
    if step.DoStale? {
      StaleSettles(s, step);
    } else {
      MissingSettles(o, s, step);
    }
  }

  lemma StaleSettles(s: Sys, step: Step)
    requires Settled(s) && step.DoStale?
    ensures Settled(Next(s, step))
  {
    hide PidAnswers, Settled;
    if Known(s) && Mode(s) == ScaleToZero {
      ResidentSettled(s, Write(s, ColdRow(s.row.value), true));
    }
  }

  lemma MissingSettles(o: Sys, s: Sys, step: Step)
    requires Inv(o, s) && Settled(s) && step.DoMissing?
    ensures Settled(Next(s, step))
  {
    hide StartLocked, Inv, PidAnswers, Settled;
    if Known(s) && Mode(s) == LongRunning {
      var t := Write(s, ColdRow(s.row.value), true);
      StartSettles(o, s, step.reconcile.start);
      SoftKeeps(o, s, t);
      ResidentSettled(s, t);
      StartSettles(o, t, step.reconcile.start);
    }
  }

  lemma CancelSettles(o: Sys, s: Sys)
    requires Inv(o, s) && Settled(s)
    ensures Settled(CancelLifecycle(s))
  {
    if s.generation > 0 {
      BumpedTimers(o, s, CancelLifecycle(s));
    }
    hide Inv;
  }

  lemma SmallStepSettles(s: Sys, step: Step)
    requires Settled(s) && KeepsModes(s, step) && (s.row.Some? ==> Known(s))
    requires step.DoRename? || step.DoTouch? || step.DoOsExit? || step.DoReap? || step.DoRelease?
             || step.DoKillOrphan? || step.DoImport?
    ensures Settled(Next(s, step))
  {
    hide NoTimerMatches, Live;
    SmallStepPlaces(s, step);
  }

  lemma SmallStepPlaces(s: Sys, step: Step)
    requires KeepsModes(s, step) && (s.row.Some? ==> Known(s))
    requires step.DoRename? || step.DoTouch? || step.DoOsExit? || step.DoReap? || step.DoRelease?
             || step.DoKillOrphan? || step.DoImport?
    ensures Replaces(s, Next(s, step))
  {
    hide Replaces;
    if step.DoImport? {
      ImportPlaces(s, step);
    } else if step.DoRename? {
      RenamePlaces(s, step.name, step.ok);
    } else {
      ProcessPlaces(s, step);
    }
  }

  /** The same instance in the same mode, but for its name, its processes and its clocks. */
  predicate Replaces(s: Sys, t: Sys) {
    && t.tracked == s.tracked && (NoTimerMatches(t) <==> NoTimerMatches(s))
    && (if s.row.Some? then t.row == Some(s.row.value.(name := if t.row.Some? then t.row.value.name else "")) else t.row == None)
    && (Known(s) ==> Known(t) && Mode(t) == Mode(s))
  }

  lemma ImportPlaces(s: Sys, step: Step)
    requires KeepsModes(s, step) && (s.row.Some? ==> Known(s)) && step.DoImport?
    ensures Replaces(s, Next(s, step))
  {
  }

  lemma RenamePlaces(s: Sys, name: string, ok: bool)
    ensures Replaces(s, Rename(s, name, ok))
  {
  }

  lemma ProcessPlaces(s: Sys, step: Step)
    requires step.DoTouch? || step.DoOsExit? || step.DoReap? || step.DoRelease? || step.DoKillOrphan?
    ensures Replaces(s, Next(s, step))
  {
    ProcessOnly(s, step);
    hide Next, NoTimerMatches;
    SameTimers(s, Next(s, step));
  }

  lemma ProcessOnly(s: Sys, step: Step)
    requires step.DoTouch? || step.DoOsExit? || step.DoReap? || step.DoRelease? || step.DoKillOrphan?
    ensures var t := Next(s, step); t == s.(heap := t.heap, tickets := t.tickets, lastActivity := t.lastActivity)
  {
  }

  /** Every step keeps the instance settled - except exactly the create that misses an entry. */
  lemma NextSettles(o: Sys, s: Sys, step: Step)
    requires Inv(o, s) && Settled(s) && (s.row.Some? ==> Known(s)) && KeepsModes(s, step) && StoreOk(step)
    ensures Settled(Next(s, step)) <==> !MissesEntry(s, step)
  {
    if !step.DoCreate? {
      OtherStepSettles(o, s, step);
      hide Next, Inv, Settled, KeepsModes, StoreOk, LeftEntry;
    } else {
      hide Inv, Settled, CreateInstance, MissesEntry;
      CreateSettles(o, s, step.req, step.create);
    }
  }

  lemma OtherStepSettles(o: Sys, s: Sys, step: Step)
    requires Inv(o, s) && Settled(s) && (s.row.Some? ==> Known(s)) && KeepsModes(s, step) && StoreOk(step) && !step.DoCreate?
    ensures Settled(Next(s, step))
  {
    hide Inv, Settled, UpdateContent, Delete, SetRuntimeMode, ApplyServiceRuntimeMode, CreateInstance, EnsureStarted,
         Wake, TimerFire, CancelLifecycle, StoreOk, KeepsModes, ReconcileSurplus, ReconcileStale, ReconcileMissing;
    match step
    case DoDelete(f) => DeleteSettles(o, s, f);
    case DoSetMode(mode, f) => SetModeSettles(o, s, mode, f);
    case DoApplyMode(f) => ApplyModeSettles(o, s, f);
    case DoEnsure(f) => EnsureSettles(o, s, f);
    case DoWake(h, f) => WakeSettles(s, h, f);
    case DoTimer(i, f) => TimerSettles(s, i, f);
    case DoUpdate(_, _, _, _, _) => UpdateSettles(o, s, step);
    case DoSurplus(f) => SurplusSettles(o, s, f);
    case DoStale(f) => RepairSettles(o, s, step);
    case DoMissing(f) => RepairSettles(o, s, step);
    case DoStart(f) => ControlSettles(o, s, step);
    case DoStop(_, f) => ControlSettles(o, s, step);
    case DoRestart(f) => ControlSettles(o, s, step);
    case DoRestartIfWarm(_, f) => ControlSettles(o, s, step);
    case DoShutdownStop(_, f) => ControlSettles(o, s, step);
    case DoPark(_, f) => ControlSettles(o, s, step);
    case DoCancel => CancelSettles(o, s);
    case _ => SmallStepSettles(s, step);
  }

  /** No step of the run is a create that misses an entry. */
  predicate EntriesFound(s: Sys, steps: seq<Step>)
    decreases |steps|
  {
    steps == [] || (!MissesEntry(s, steps[0]) && EntriesFound(Next(s, steps[0]), steps[1..]))
  }

  lemma AgreeKnown(s: Sys)
    requires Agree(s)
    ensures s.row.Some? ==> Known(s)
  {
  }

  lemma {:induction false} RunSettles(o: Sys, s: Sys, steps: seq<Step>)
    requires Inv(o, s) && Agree(s) && Settled(s) && ModesFixed(s, steps) && EntriesFound(s, steps)
    requires forall k :: 0 <= k < |steps| ==> StoreOk(steps[k])
    ensures Settled(Run(s, steps))
    decreases |steps|
  {
    hide Inv, Agree, Settled, Next, KeepsModes, MissesEntry, StoreOk;
    if steps != [] {
      AgreeKnown(s);
      NextSettles(o, s, steps[0]);
      NextAgrees(o, s, steps[0]);
      NextKeeps(o, s, steps[0]);
      RunSettles(o, Next(s, steps[0]), steps[1..]);
    }
  }

  /**
   * With service modes fixed and store writes succeeding, every run whose creates miss no
   * entry leaves an on-demand instance without a tracked entry, enabled, running, without
   * pid or address, and out of every timer's reach - stop timeouts and rolled back mode
   * switches included.
   */
  lemma OnDemandLands(before: Sys, steps: seq<Step>)
    requires Initial(before) && (before.row.Some? ==> Known(before)) && Settled(before)
    requires ModesFixed(before, steps) && EntriesFound(before, steps)
    requires forall k :: 0 <= k < |steps| ==> StoreOk(steps[k])
    ensures var s := Run(before, steps);
      Known(s) && Mode(s) == OnDemand ==>
        s.tracked == None && Resting(s.row.value) && NoTimerMatches(s)
  {
    InitialAgrees(before);
    hide Inv, Next, Run, Initial, Agree, ModesFixed, EntriesFound;
    RunSettles(before, before, steps);
  }

  /** The exception, as a whole-run statement: the first create that misses an entry leaves
      an on-demand instance with a tracked entry. */
  lemma LandsUnlessEntryMissed(before: Sys, steps: seq<Step>, step: Step)
    requires Initial(before) && (before.row.Some? ==> Known(before)) && Settled(before)
    requires ModesFixed(before, steps) && EntriesFound(before, steps)
    requires forall k :: 0 <= k < |steps| ==> StoreOk(steps[k])
    requires StoreOk(step) && KeepsModes(Run(before, steps), step)
    ensures Settled(Next(Run(before, steps), step)) <==> !MissesEntry(Run(before, steps), step)
  {
    InitialAgrees(before);
    hide Inv, Settled, Next, MissesEntry, KeepsModes, Live, Run, Initial;
    RunSettles(before, before, steps);
    RunAgrees(before, before, steps);
    RunKeeps(before, before, steps);
    NextSettles(before, Run(before, steps), step);
  }

  // ----- the window is real ----------------------------------------------------

  const GOOD_STOP := StopFate(Seen, true, true)
  const GOOD_START := StartFate(true, true, true, true, true, true, 7, "4000", false, 10, true, false)
  const GOOD_RESTART := RestartFate(true, false, true, GOOD_STOP, GOOD_START)
  const GOOD_CREATE := CreateFate(true, true, true, true, true, true, 10, GOOD_STOP, GOOD_START, GOOD_RESTART)

  const ASK_WARM := CreateRequest("svc", "", "a", "s", false, None)
  const ASK_ON_DEMAND := CreateRequest("svc", "", "b", "s", false, Some(OnDemand))

  const ADDR := "127.0.0.1:" + "4000"
  const COLD_ROW := Row("svc", "inst", "e", "a", "s", None, true, Stopped, None, "")
  const DEGRADED_ROW := Row("svc", "inst", "e", "b", "s", Some(OnDemand), true, Degraded, None, "")
  const WARM_PROC := NewProc(7, 0, 1, true).(refs := 1, watcher := Waiting)

  function Empty(): Sys {
    Sys("inst", None, map["svc" := Service(Some(ScaleToZero), "e")], None, [], 0, None, None, [], [], 0, false)
  }

  /** The states of the run below, in order. */
  function Stage(k: nat): Sys {
    var cold := Empty().(row := Some(COLD_ROW));
    var warm := cold.(row := Some(COLD_ROW.(status := Running, pid := Some(7), addr := ADDR)), tracked := Some(0),
                      heap := [WARM_PROC], generation := 1, lastActivity := Some(10), tickets := [Ticket(0, 0)], wg := 1);
    var exited := warm.(heap := [ReapedProc(WARM_PROC)]);
    var cleared := exited.(row := Some(COLD_ROW.(config := "b")));
    var switched := cleared.(row := Some(DEGRADED_ROW.(status := Running)), generation := 2,
                             heap := [ReapedProc(WARM_PROC).(scaleToZero := false)]);
    if k == 0 then Empty()
    else if k == 1 then cold
    else if k == 2 then warm
    else if k == 3 then exited
    else if k == 4 then cleared
    else if k == 5 then switched
    else switched.(row := Some(DEGRADED_ROW), tracked := None, lastActivity := None,
                   heap := [switched.heap[0].(watcher := Finished)], timers := [Timer(1, 1, true)])
  }

  /** A scale-to-zero instance is created, warmed by a call, and its process dies. A config
      update with restart takes it for cold before the watcher gets the gate; the switch to
      on-demand does too; then the watcher gets the gate. */
  function WindowStep(k: nat): Step {
    if k == 0 then DoCreate(ASK_WARM, GOOD_CREATE)
    else if k == 1 then DoEnsure(EnsureFate(false, true, 10, GOOD_START, 0, false))
    else if k == 2 then DoReap(0)
    else if k == 3 then DoUpdate(SetConfig("b"), true, true, true, GOOD_RESTART)
    else if k == 4 then DoCreate(ASK_ON_DEMAND, GOOD_CREATE)
    else DoWake(0, WakeFate(true, true, true))
  }

  lemma WindowCreates()
    ensures Next(Stage(0), WindowStep(0)) == Stage(1)
  {
  }

  lemma WindowWarms()
    ensures Next(Stage(1), WindowStep(1)) == Stage(2)
  {
    hide StartLocked;
    var s1 := Stage(1).(lastActivity := Some(10));
    assert !Live(Stage(1)) && s1 == Stage(1).(startFailure := None, lastActivity := Some(10));
    WindowStarts(s1);
    WindowTakesRef();
    hide TakeRef;
  }

  lemma WindowTakesRef()
    ensures TakeRef(Stage(2).(heap := [WARM_PROC.(refs := 0)], tickets := [])) == Stage(2)
  {
  }

  lemma WindowStarts(s: Sys)
    requires s == Stage(1).(lastActivity := Some(10))
    ensures StartLocked(s, GOOD_START) == (Stage(2).(heap := [WARM_PROC.(refs := 0)], tickets := []), Ok)
  {
    var (t, err) := StartLocked(s, GOOD_START);
    assert err == Ok && t.heap == [WARM_PROC.(refs := 0)];
  }

  lemma WindowExits()
    ensures Next(Stage(2), WindowStep(2)) == Stage(3)
  {
  }

  lemma WindowClears()
    ensures Next(Stage(3), WindowStep(3)) == Stage(4)
  {
    hide StopThenStart, StartLocked;
  }

  lemma WindowSwitches()
    ensures LeftEntry(Stage(4)) && Next(Stage(4), WindowStep(4)) == Stage(5)
  {
    hide StopProcess, StartLocked, Converge;
  }

  lemma WindowWakes()
    ensures Next(Stage(5), WindowStep(5)) == Stage(6)
  {
    hide TimerFire, StartWithAttempt, StopProcess;
  }

  function WindowFrom(k: nat): seq<Step>
    decreases 6 - k
  {
    if k >= 6 then [] else [WindowStep(k)] + WindowFrom(k + 1)
  }

  lemma WindowAdvances(k: nat)
    requires k < 6
    ensures Next(Stage(k), WindowStep(k)) == Stage(k + 1)
  {
    WindowCreates();
    WindowWarms();
    WindowExits();
    WindowClears();
    WindowSwitches();
    WindowWakes();
    hide *;
  }

  lemma {:induction false} WindowRuns(k: nat)
    requires k <= 6
    ensures Run(Stage(k), WindowFrom(k)) == Stage(6)
    decreases 6 - k
  {
    hide Next, Stage, WindowStep;
    if k < 6 {
      WindowAdvances(k);
      assert WindowFrom(k)[1..] == WindowFrom(k + 1);
      WindowRuns(k + 1);
    }
  }

  /** A run from an empty store, modes fixed and every write landing, that ends with an
      on-demand row marked degraded - which no call is served from. */
  lemma WindowDegradesOnDemandRow()
    ensures Initial(Empty()) && Settled(Empty()) && forall k :: 0 <= k < 6 ==> StoreOk(WindowStep(k)) && !WindowStep(k).DoImport?
    ensures var s := Run(Empty(), WindowFrom(0));
      Known(s) && Mode(s) == OnDemand && s.row.value.enabled && s.row.value.status == Degraded
  {
    hide Next, Run, WindowFrom;
    WindowRuns(0);
  }
}
