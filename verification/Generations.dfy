/** Which steps take a new generation, exactly, and what that means for a pending backoff timer. */
module Generations {
  import opened Domain
  import opened Lifecycle
  import opened Operations
  import opened Machine
  import opened Ownership
  import opened Guarantees

  // ----- the steps that act ----------------------------------------------------

  /** restartLocked stops or starts something: it is not refused, and not the repair of a cold
      scale-to-zero row. */
  predicate RestartActs(s: Sys, f: RestartFate) {
    f.read && Known(s) && Mode(s) != OnDemand && (Mode(s) == LongRunning || (Live(s) && !f.exit))
  }

  predicate KeepModeActs(s: Sys, after: RuntimeMode, f: ModeFate) {
    && s.row.Some? && f.write && f.reread
    && if after == LongRunning then s.row.value.enabled && !Live(s) && Startable(s.row.value.status)
       else after == OnDemand && (s.row.value.pid.Some? || Live(s))
  }

  predicate SetModeActs(s: Sys, mode: Option<RuntimeMode>, f: ModeFate) {
    && !s.cancelled && f.read && Known(s)
    && var before, after := Mode(s), EffectiveRuntimeMode(s.services[s.row.value.service], mode);
       if before == after then KeepModeActs(s, after, f)
       else after == OnDemand
            || (after == LongRunning && f.write && f.reread && s.row.value.enabled && (before == OnDemand || !Live(s)))
  }

  /** A create or sync of an existing row, by the mode before and after. */
  predicate ConvergeActs(s: Sys, req: CreateRequest, f: CreateFate)
    requires Known(s) && req.service in s.services
  {
    var svc, row := s.services[req.service], s.row.value;
    var before, after := Mode(s), EffectiveRuntimeMode(svc, req.mode);
    var warm, changed := Live(s) || row.pid.Some?, ContentChanged(row, req, svc);
    var restarts := f.restart.read && (after == LongRunning || (Live(s) && !f.restart.exit));
    if after == OnDemand then before != OnDemand || (f.file && f.write && warm)
    else
      && f.file && f.write
      && if before == after then
           changed && if warm then restarts
                      else after == LongRunning && row.enabled && (row.status == Failed || row.status == Degraded)
         else if before == OnDemand then after == LongRunning && row.enabled
         else row.enabled && if warm then changed && restarts else after == LongRunning
  }

  predicate CreateActs(s: Sys, req: CreateRequest, f: CreateFate) {
    && f.valid && req.service in s.services
    && var svc := s.services[req.service];
       match s.row
       case None => req.start && EffectiveRuntimeMode(svc, req.mode) == LongRunning && f.file && f.write
       case Some(row) =>
         if Unchanged(s, row, req, svc) then
           row.enabled && row.status == Failed && EffectiveRuntimeMode(svc, row.mode) == LongRunning && !Live(s)
         else row.service in s.services && ConvergeActs(s, req, f)
  }

  predicate EnsureActs(s: Sys, f: EnsureFate) {
    && !f.goneAtGate && !Live(s) && f.read && s.row.Some? && s.row.value.enabled
    && (s.startFailure.Some? ==> f.now - s.startFailure.value >= START_FAILURE_WINDOW)
  }

  predicate MissingActs(s: Sys, f: ReconcileFate) {
    && f.read && ClaimsResident(s, LongRunning) && s.tracked.None?
    && (s.row.value.pid.Some? && !PidAnswers(s, f) ==> f.write)
  }

  /** Every step that starts or stops the instance, or switches it to on-demand, by what is
      known before it. */
  predicate Supersedes(s: Sys, step: Step) {
    match step
    case DoStart(_) => !Live(s)
    case DoStop(read, _) => read && Known(s) && Mode(s) != OnDemand
    case DoRestart(f) => f.read && Known(s) && Mode(s) != OnDemand
    case DoRestartIfWarm(read, f) => read && Live(s) && RestartActs(s, f)
    case DoUpdate(_, reload, valid, ok, f) => valid && ok && reload && RestartActs(s, f)
    case DoDelete(f) => f.read && Known(s) && (f.remove || Mode(s) != OnDemand || Live(s))
    case DoSetMode(mode, f) => SetModeActs(s, mode, f)
    case DoApplyMode(f) => !s.cancelled && f.read && Known(s) && Mode(s) != LongRunning
    case DoCreate(req, f) => CreateActs(s, req, f)
    case DoEnsure(f) => EnsureActs(s, f)
    case DoPark(scannedAt, f) => f.read && Parkable(s, scannedAt)
    case DoSurplus(f) => f.read && Surplus(s)
    case DoMissing(f) => MissingActs(s, f)
    case DoShutdownStop(read, _) => read && Known(s) && ResidentMode(Mode(s))
    case DoCancel => true
    case _ => false
  }

  // ----- exactly those take a generation ---------------------------------------

  predicate Newer(s: Sys, t: Sys) {
    t.generation > s.generation
  }

  lemma StopNewer(s: Sys, row: Row, enabled: bool, f: StopFate)
    ensures StopProcess(s, row, enabled, f).0.generation == s.generation + 1
  {
  }

  lemma RegisterNotOlder(s: Sys, row: Row, p: Proc, f: StartFate)
    ensures Register(s, row, p, f).0.generation >= s.generation
  {
  }

  lemma StartNotOlder(s: Sys, attempt: nat, g: nat, f: StartFate)
    ensures StartWithAttempt(s, attempt, g, f).0.generation >= s.generation
  {
    hide Register;
    if !s.cancelled && Known(s) && f.spawn && f.announce {
      var running := s.row.value.(enabled := true, status := Running, addr := "127.0.0.1:" + f.port, pid := Some(f.pid));
      var p := NewProc(f.pid, attempt, g, Mode(s) == ScaleToZero);
      RegisterNotOlder(CancelIf(Write(s, running, true), f.cancelEarly), running, p, f);
    }
  }

  lemma StartLockedNewer(s: Sys, f: StartFate)
    ensures Newer(s, StartLocked(s, f).0)
  {
    hide StartWithAttempt;
    StartNotOlder(Bump(s), 0, s.generation + 1, f);
  }

  lemma StopThenStartNewer(s: Sys, wasEnabled: bool, f: RestartFate)
    requires s.row.Some?
    ensures Newer(s, StopThenStart(s, wasEnabled, f).0)
  {
    hide StopProcess, StartLocked;
    StopNewer(s, s.row.value, wasEnabled, f.stop);
    StartLockedNewer(StopProcess(s, s.row.value, wasEnabled, f.stop).0, f.start);
  }

  lemma ExitedOnly(s: Sys, b: bool)
    requires ProcsOk(s)
    ensures var t := ExitTracked(s, b);
      && t.row == s.row && t.services == s.services && t.generation == s.generation
      && (Live(t) <==> Live(s) && !b)
  {
    if s.tracked.Some? {
      assert ProcOk(s.heap[s.tracked.value]);
    }
  }

  lemma RestartLockedExactly(s: Sys, wasEnabled: bool, f: RestartFate)
    requires ProcsOk(s)
    ensures Newer(s, RestartLocked(s, wasEnabled, f).0) <==> RestartActs(s, f)
  {
    hide StopThenStart, ExitTracked, ProcsOk;
    ExitedOnly(s, f.exit);
    var s0 := ExitTracked(s, f.exit);
    if s0.row.Some? {
      StopThenStartNewer(s0, wasEnabled, f);
    }
  }

  lemma StopAndLandNewer(s: Sys, row: Row, mode: Option<RuntimeMode>, f: ModeFate)
    ensures Newer(s, StopAndLand(s, row, mode, f).0)
  {
    hide StopProcess;
    StopNewer(s, row, true, f.stop);
  }

  lemma RollBackNotOlder(s: Sys, previous: Option<RuntimeMode>, f: ModeFate)
    ensures RollBackMode(s, previous, f).generation >= s.generation
  {
    hide StopProcess;
    if s.row.Some? {
      StopNewer(s, s.row.value, true, f.stop);
    }
  }

  lemma KeepModeExactly(s: Sys, mode: Option<RuntimeMode>, after: RuntimeMode, f: ModeFate)
    requires s.row.Some?
    ensures Newer(s, KeepMode(s, mode, after, f).0) <==> KeepModeActs(s, after, f)
  {
    hide StartLocked, StopAndLand;
    var row := s.row.value.(mode := mode);
    StartLockedNewer(Write(s, row, true), f.start);
    StopAndLandNewer(Write(s, row, true), row, mode, f);
  }

  lemma EnterLongRunningExactly(s: Sys, mode: Option<RuntimeMode>, fromOnDemand: bool, f: ModeFate)
    requires s.row.Some?
    ensures Newer(s, EnterLongRunning(s, mode, fromOnDemand, f).0) <==>
              f.write && f.reread && s.row.value.enabled && (fromOnDemand || !Live(s))
  {
    hide StartLocked, RollBackMode;
    var s1 := Write(s, s.row.value.(mode := mode), true);
    StartLockedNewer(s1, f.start);
    RollBackNotOlder(StartLocked(s1, f.start).0, s.row.value.mode, f);
  }

  lemma Flagged(s: Sys, flag: bool)
    ensures var t := FlagScaleToZero(s, flag);
      t.row == s.row && t.services == s.services && t.generation == s.generation && (Live(t) <==> Live(s))
      && t.cancelled == s.cancelled && t.id == s.id && (ProcsOk(s) ==> ProcsOk(t))
  {
    if ProcsOk(s) && s.tracked.Some? {
      assert ProcOk(s.heap[s.tracked.value]);
    }
  }

  lemma SetModeExactly(s: Sys, mode: Option<RuntimeMode>, f: ModeFate)
    ensures Newer(s, SetRuntimeMode(s, mode, f).0) <==> SetModeActs(s, mode, f)
  {
    hide KeepMode, EnterLongRunning, StopAndLand, FlagScaleToZero, Live;
    if Known(s) {
      var after := EffectiveRuntimeMode(s.services[s.row.value.service], mode);
      var s1 := FlagScaleToZero(s, after == ScaleToZero);
      Flagged(s, after == ScaleToZero);
      KeepModeExactly(s1, mode, after, f);
      StopAndLandNewer(Bump(s1), s.row.value, mode, f);
      EnterLongRunningExactly(s1, mode, Mode(s) == OnDemand, f);
    }
  }

  lemma ApplyModeExactly(s: Sys, f: ApplyFate)
    requires ProcsOk(s)
    ensures Newer(s, ApplyServiceRuntimeMode(s, f).0) <==> !s.cancelled && f.read && Known(s) && Mode(s) != LongRunning
  {
    hide StopProcess, RestartLocked, Live;
    if s.row.Some? {
      StopNewer(Bump(s), s.row.value, s.row.value.enabled, f.stop);
      RestartNotOlder(Bump(s), s.row.value.enabled, f.restart);
    }
  }

  lemma RestartNotOlder(s: Sys, wasEnabled: bool, f: RestartFate)
    ensures RestartLocked(s, wasEnabled, f).0.generation >= s.generation
  {
    hide StopThenStart;
    var s0 := ExitTracked(s, f.exit);
    if s0.row.Some? {
      StopThenStartNewer(s0, wasEnabled, f);
    }
  }

  lemma ConvergeExactly(s: Sys, req: CreateRequest, f: CreateFate)
    requires ProcsOk(s) && Known(s) && req.service in s.services
    ensures Newer(s, CreateChanged(s, req, f).0) <==> ConvergeActs(s, req, f)
  {
    hide FlagScaleToZero, Live, ProcsOk;
    var svc, row := s.services[req.service], s.row.value;
    var merged := Merged(s, row, req, svc);
    var after := EffectiveRuntimeMode(svc, req.mode);
    SwitchNewer(s, row, merged, f);
    var w := Write(s, merged, true);
    Flagged(w, after == ScaleToZero);
    assert ProcsOk(w) && (Live(w) <==> Live(s)) by { WriteOnly(s, merged); }
    var s1 := FlagScaleToZero(w, after == ScaleToZero);
    hide Converge, SwitchToOnDemand;
    if after != OnDemand || Mode(s) == OnDemand {
      TailExactly(s1, row, merged, Mode(s), after, Live(s), ContentChanged(row, req, svc), f);
    }
  }

  lemma WriteOnly(s: Sys, row: Row)
    ensures ProcsOk(s) ==> ProcsOk(Write(s, row, true))
    ensures Live(Write(s, row, true)) <==> Live(s)
  {
  }

  lemma SwitchNewer(s: Sys, row: Row, merged: Row, f: CreateFate)
    ensures Newer(s, SwitchToOnDemand(s, row, merged, f).0)
  {
    hide StopProcess, CommitMerged;
    StopNewer(Bump(s), row, true, f.stop);
    CommitNotOlder(StopProcess(Bump(s), row, true, f.stop).0, merged, f);
    CommitNotOlder(Bump(s), merged, f);
  }

  lemma CommitNotOlder(s: Sys, merged: Row, f: CreateFate)
    ensures CommitMerged(s, merged, f).0.generation == s.generation
  {
  }

  /** The tail of a create on an existing row. */
  lemma TailExactly(s: Sys, row: Row, merged: Row, before: RuntimeMode, after: RuntimeMode,
                    tracked: bool, contentChanged: bool, f: CreateFate)
    requires ProcsOk(s) && s.row == Some(merged) && Known(s) && Mode(s) == after && tracked == Live(s)
    requires before != after ==> after != OnDemand
    ensures Newer(s, Converge(s, row, merged, before, after, tracked, contentChanged, f).0) <==>
              TailActs(row, merged, before, after, tracked, contentChanged, f)
  {
    hide StopProcess, RestartLocked, StartLocked, Live, ProcsOk;
    RestartLockedExactly(s, merged.enabled, f.restart);
    StartLockedNewer(s, f.start);
    StopNewer(Bump(s), merged, true, f.stop);
  }

  predicate TailActs(row: Row, merged: Row, before: RuntimeMode, after: RuntimeMode, tracked: bool, contentChanged: bool,
                     f: CreateFate)
  {
    var warm := tracked || row.pid.Some?;
    var restarts := f.restart.read && (after == LongRunning || (tracked && !f.restart.exit));
    if after == OnDemand then warm
    else if before == after then
      contentChanged && if warm then restarts
                        else after == LongRunning && merged.enabled && (row.status == Failed || row.status == Degraded)
    else if before == OnDemand then after == LongRunning && merged.enabled
    else merged.enabled && if warm then contentChanged && restarts else after == LongRunning
  }

  lemma CreateExactly(s: Sys, req: CreateRequest, f: CreateFate)
    requires ProcsOk(s)
    ensures Newer(s, CreateInstance(s, req, f).0) <==> CreateActs(s, req, f)
  {
    hide StartLocked, CreateChanged, ConvergeActs, Live, CreateNew;
    StartLockedNewer(s, f.start);
    if req.service in s.services {
      if s.row.None? {
        CreateNewExactly(s, req, f);
      } else if Known(s) {
        ConvergeExactly(s, req, f);
      }
    }
  }

  lemma CreateNewExactly(s: Sys, req: CreateRequest, f: CreateFate)
    requires req.service in s.services
    ensures Newer(s, CreateNew(s, req, f).0) <==>
              req.start && EffectiveRuntimeMode(s.services[req.service], req.mode) == LongRunning && f.file && f.write
  {
    hide StartLocked;
    var svc := s.services[req.service];
    var mode := EffectiveRuntimeMode(svc, req.mode);
    var start := req.start && mode == LongRunning;
    var row := Row(req.service, RequestName(s, req), svc.nodeEntry, req.config, req.secret, req.mode,
                   req.start || mode != LongRunning,
                   if mode == OnDemand then Running else if start then Starting else Stopped, None, "");
    StartLockedNewer(Write(s, row, true), f.start);
  }

  lemma EnsureExactly(s: Sys, f: EnsureFate)
    ensures Newer(s, EnsureStarted(s, f).0) <==> EnsureActs(s, f)
  {
    hide StartLocked;
    StartLockedNewer(s.(startFailure := None, lastActivity := Some(f.now)), f.start);
  }

  lemma ReconcileExactly(s: Sys, f: ReconcileFate)
    ensures Newer(s, ReconcileSurplus(s, f).0) <==> f.read && Surplus(s)
    ensures Newer(s, ReconcileMissing(s, f).0) <==> MissingActs(s, f)
  {
    hide StopProcess, StartLocked;
    if s.row.Some? {
      StopNewer(s, s.row.value, s.row.value.enabled, f.stop);
      StartLockedNewer(s, f.start);
      StartLockedNewer(Write(s, ColdRow(s.row.value), true), f.start);
    }
  }

  lemma ControlExactly(s: Sys, step: Step)
    requires ProcsOk(s)
    requires step.DoStart? || step.DoStop? || step.DoRestart? || step.DoRestartIfWarm? || step.DoUpdate?
    ensures Newer(s, Next(s, step)) <==> Supersedes(s, step)
  {
    hide StopProcess, StartLocked, StopThenStart, RestartLocked, RestartActs, Live, ProcsOk;
    match step
    case DoStart(f) => StartLockedNewer(s, f);
    case DoStop(_, f) => if s.row.Some? { StopNewer(s, s.row.value, false, f); }
    case DoRestart(f) => if s.row.Some? { StopThenStartNewer(s, s.row.value.enabled, f); }
    case DoRestartIfWarm(read, f) => RestartIfWarmExactly(s, read, f);
    case DoUpdate(_, _, _, _, _) => UpdateExactly(s, step);
  }

  lemma StoppingExactly(s: Sys, step: Step)
    requires step.DoDelete? || step.DoPark? || step.DoShutdownStop?
    ensures Newer(s, Next(s, step)) <==> Supersedes(s, step)
  {
    hide StopProcess, Live;
    match step
    case DoDelete(f) => if s.row.Some? { StopNewer(s, s.row.value, false, f.stop); }
    case DoPark(_, f) => if s.row.Some? { StopNewer(s, s.row.value, true, f.stop); }
    case DoShutdownStop(_, f) => if s.row.Some? { StopNewer(s, s.row.value, s.row.value.enabled, f); }
  }

  lemma RestartIfWarmExactly(s: Sys, read: bool, f: RestartFate)
    requires ProcsOk(s)
    ensures Newer(s, RestartIfWarm(s, read, f).0) <==> read && Live(s) && RestartActs(s, f)
  {
    hide RestartLocked, Live, ProcsOk;
    if s.row.Some? {
      RestartLockedExactly(s, s.row.value.enabled, f);
    }
  }

  lemma UpdateExactly(s: Sys, step: Step)
    requires ProcsOk(s) && step.DoUpdate?
    ensures Newer(s, Next(s, step)) <==> Supersedes(s, step)
  {
    hide RestartLocked, ProcsOk, Live;
    if s.row.Some? {
      var row := Edited(s.row.value, step.edit);
      WriteOnly(s, row);
      RestartLockedExactly(Write(s, row, true), row.enabled, step.restart);
    }
  }

  /** The steps that only watch, record, repair a row or signal. */
  predicate Bystander(step: Step) {
    step.DoRename? || step.DoRelease? || step.DoTouch? || step.DoOsExit? || step.DoReap? || step.DoWake? || step.DoStale?
    || step.DoKillOrphan? || step.DoImport?
  }

  lemma BystandersTakeNone(s: Sys, step: Step)
    requires Bystander(step)
    ensures Next(s, step).generation == s.generation && !Supersedes(s, step)
  {
  }

  lemma SwitchesExactly(s: Sys, step: Step)
    requires ProcsOk(s) && (step.DoSetMode? || step.DoApplyMode? || step.DoCreate?)
    ensures Newer(s, Next(s, step)) <==> Supersedes(s, step)
  {
    hide SetRuntimeMode, ApplyServiceRuntimeMode, CreateInstance, SetModeActs, CreateActs, ProcsOk;
    match step
    case DoSetMode(mode, f) => SetModeExactly(s, mode, f);
    case DoApplyMode(f) => ApplyModeExactly(s, f);
    case DoCreate(req, f) => CreateExactly(s, req, f);
  }

  lemma DemandsExactly(s: Sys, step: Step)
    requires step.DoEnsure? || step.DoSurplus? || step.DoMissing?
    ensures Newer(s, Next(s, step)) <==> Supersedes(s, step)
  {
    hide EnsureStarted, ReconcileSurplus, ReconcileMissing, EnsureActs, MissingActs, Surplus;
    match step
    case DoEnsure(f) => EnsureExactly(s, f);
    case DoSurplus(f) => ReconcileExactly(s, f);
    case DoMissing(f) => ReconcileExactly(s, f);
  }

  /** A step takes a new generation if and only if it acts. (A timer's start takes none of its
      own; one that Shutdown overtakes is Shutdown's.) */
  lemma SupersedesBumps(s: Sys, step: Step)
    requires ProcsOk(s)
    ensures !step.DoTimer? && !step.DoCancel? ==> (Newer(s, Next(s, step)) <==> Supersedes(s, step))
    ensures step.DoCancel? ==> Next(s, step).cancelled
  {
    if step.DoCancel? {
    } else {
      hide Next, Supersedes, ProcsOk;
      if step.DoSetMode? || step.DoApplyMode? || step.DoCreate? {
        SwitchesExactly(s, step);
      } else if step.DoEnsure? || step.DoSurplus? || step.DoMissing? {
        DemandsExactly(s, step);
      } else if step.DoDelete? || step.DoPark? || step.DoShutdownStop? {
        StoppingExactly(s, step);
      } else if Bystander(step) {
        BystandersTakeNone(s, step);
      } else if !step.DoTimer? {
        ControlExactly(s, step);
      }
    }
  }

  // ----- what that means for a timer -------------------------------------------

  /**
   * A backoff timer that was pending before a superseding step starts nothing and writes
   * nothing when it goes off after it, whatever ran before, between and since - also after
   * a delete and a re-create of the same id.
   */
  lemma SupersededTimerStandsDown(before: Sys, prefix: seq<Step>, step: Step, suffix: seq<Step>, i: nat, f: TimerFate)
    requires Initial(before)
    requires var s := Run(before, prefix); i < |s.timers| && Supersedes(s, step)
    ensures var t := Run(Next(Run(before, prefix), step), suffix);
      i < |t.timers| && TimerFire(t, i, f) == if t.timers[i].pending then Disarm(t, i) else t
  {
    hide Inv;
    var s := Run(before, prefix);
    ReachableInv(s, before, prefix);
    SupersedesBumps(s, step);
    var s1 := Next(s, step);
    NextKeeps(s, s, step);
    RunKeeps(s, s1, suffix);
    NextKeeps(before, s, step);
    RefreshInv(before, s1);
    RunKeeps(s1, s1, suffix);
    TimerOutgrown(s, s1, Run(s1, suffix), i);
  }

  lemma RefreshInv(o: Sys, s: Sys)
    requires Inv(o, s)
    ensures Inv(s, s)
  {
  }

  lemma TimerOutgrown(s: Sys, s1: Sys, t: Sys, i: nat)
    requires Inv(s, s) && Inv(s, s1) && Inv(s, t) && Inv(s1, t) && i < |s.timers|
    requires s1.generation > s.generation || s1.cancelled
    ensures i < |t.timers|
    ensures t.timers[i].pending ==> t.cancelled || t.timers[i].generation != t.generation
  {
  }
}
