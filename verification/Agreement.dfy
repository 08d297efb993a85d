/** A live process and its row say the same thing, whatever fails, as long as no import
    changes a service's mode. */
module Agreement {
  import opened Domain
  import opened Lifecycle
  import opened Operations
  import opened Machine
  import opened Ownership

  /** The row describes exactly this process as running. */
  predicate Vouches(row: Row, p: Proc) {
    row.enabled && row.status == Running && row.pid == Some(p.pid) && row.addr != ""
  }

  predicate Agree(s: Sys) {
    && (s.tracked.Some? ==> s.tracked.value < |s.heap|)
    && (s.row.Some? ==> Known(s))
    && (Live(s) ==> s.row.Some? && Mode(s) != OnDemand)
    && (Live(s) && s.heap[s.tracked.value].alive ==> Vouches(s.row.value, s.heap[s.tracked.value]))
  }

  /** An import that leaves the mode of an existing service alone. */
  predicate KeepsModes(s: Sys, step: Step) {
    step.DoImport? && step.service in s.services ==>
      EffectiveRuntimeMode(step.svc, None) == EffectiveRuntimeMode(s.services[step.service], None)
  }

  predicate ModesFixed(s: Sys, steps: seq<Step>)
    decreases |steps|
  {
    steps == [] || (KeepsModes(s, steps[0]) && ModesFixed(Next(s, steps[0]), steps[1..]))
  }

  // ----- building blocks -------------------------------------------------------

  predicate Sound(s: Sys) {
    (s.tracked.Some? ==> s.tracked.value < |s.heap|) && (s.row.Some? ==> Known(s))
  }

  lemma StopAgrees(s: Sys, row: Row, enabled: bool, f: StopFate)
    requires Sound(s) && row.service in s.services
    ensures var t := StopProcess(s, row, enabled, f).0;
      Agree(t) && t.tracked == None && t.services == s.services && (s.row.Some? ==> t.row.Some?)
  {
    StopShape(s, row, enabled, f);
  }

  lemma ProbeAgrees(s: Sys, row: Row, h: nat, f: StartFate)
    requires s.row.Some? && row.service in s.services && s.tracked == Some(h) && h < |s.heap|
    requires s.row.value.service in s.services
    requires Probe(s, row, h, f).1 == Ok ==> s.row.value == row && Vouches(row, s.heap[h]) && Mode(s) != OnDemand
    ensures Agree(Probe(s, row, h, f).0)
  {
  }

  lemma RegisterAgrees(s: Sys, row: Row, p: Proc, f: StartFate)
    requires Sound(s) && !Live(s) && s.row == Some(row) && Mode(s) != OnDemand && Vouches(row, p)
    ensures Agree(Register(s, row, p, f).0)
  {
    if !s.cancelled {
      var s1 := CancelIf(Spawn(s, p).(tracked := Some(|s.heap|), lastActivity := Some(f.now)), f.cancelLate);
      ProbeAgrees(s1, row, |s.heap|, f);
    }
  }

  lemma StartAgrees(s: Sys, attempt: nat, g: nat, f: StartFate)
    requires Sound(s) && !Live(s)
    ensures var t := StartWithAttempt(s, attempt, g, f).0;
      Agree(t) && t.services == s.services && (s.row.Some? ==> t.row.Some?)
  {
    hide Register;
    StartShape(s, attempt, g, f);
    if !s.cancelled && Known(s) && Mode(s) != OnDemand && f.spawn && f.announce {
      var running := s.row.value.(enabled := true, status := Running, addr := "127.0.0.1:" + f.port, pid := Some(f.pid));
      var p := NewProc(f.pid, attempt, g, Mode(s) == ScaleToZero);
      var s1 := CancelIf(Write(s, running, true), f.cancelEarly);
      RegisterAgrees(s1, running, p, f);
      RegisterKeepsRow(s1, running, p, f);
    }
  }

  lemma RegisterKeepsRow(s: Sys, row: Row, p: Proc, f: StartFate)
    requires s.row.Some?
    ensures Register(s, row, p, f).0.row.Some?
  {
  }

  lemma StartLockedAgrees(s: Sys, f: StartFate)
    requires Sound(s) && !Live(s)
    ensures var t := StartLocked(s, f).0;
      Agree(t) && t.services == s.services && (s.row.Some? ==> t.row.Some?)
  {
    hide StartWithAttempt;
    StartAgrees(Bump(s), 0, s.generation + 1, f);
  }

  // ----- operations ------------------------------------------------------------

  lemma StopThenStartAgrees(s: Sys, wasEnabled: bool, f: RestartFate)
    requires Sound(s) && s.row.Some?
    ensures Agree(StopThenStart(s, wasEnabled, f).0)
  {
    hide StopProcess, StartLocked;
    StopAgrees(s, s.row.value, wasEnabled, f.stop);
    StartLockedAgrees(StopProcess(s, s.row.value, wasEnabled, f.stop).0, f.start);
  }

  lemma RestartLockedAgrees(s: Sys, wasEnabled: bool, f: RestartFate)
    requires Agree(s)
    ensures Agree(RestartLocked(s, wasEnabled, f).0)
  {
    hide StopThenStart;
    var s0 := ExitTracked(s, f.exit);
    if Known(s0) {
      StopThenStartAgrees(s0, wasEnabled, f);
    }
  }

  lemma DeleteAgrees(s: Sys, f: DeleteFate)
    requires Agree(s)
    ensures Agree(Delete(s, f).0)
  {
    hide StopProcess;
    if Known(s) {
      StopAgrees(s, s.row.value, false, f.stop);
    }
  }

  lemma StopAndLandAgrees(s: Sys, row: Row, mode: Option<RuntimeMode>, f: ModeFate)
    requires Sound(s) && row.service in s.services
    ensures Agree(StopAndLand(s, row, mode, f).0)
  {
    hide StopProcess;
    StopAgrees(s, row, true, f.stop);
  }

  lemma KeepModeAgrees(s: Sys, mode: Option<RuntimeMode>, after: RuntimeMode, f: ModeFate)
    requires Agree(s) && s.row.Some? && after == Mode(s)
    requires after == EffectiveRuntimeMode(s.services[s.row.value.service], mode)
    ensures Agree(KeepMode(s, mode, after, f).0)
  {
    hide StopAndLand, StartLocked;
    var row := s.row.value.(mode := mode);
    var s1 := Write(s, row, true);
    StopAndLandAgrees(s1, row, mode, f);
    if !Live(s1) {
      StartLockedAgrees(s1, f.start);
    }
  }

  lemma RollBackAgrees(s: Sys, previous: Option<RuntimeMode>, f: ModeFate)
    requires Sound(s) && !Live(s)
    ensures Agree(RollBackMode(s, previous, f))
  {
    hide StopProcess;
    if s.row.Some? {
      StopAgrees(s, s.row.value, true, f.stop);
    }
  }

  lemma EnterLongRunningAgrees(s: Sys, mode: Option<RuntimeMode>, fromOnDemand: bool, f: ModeFate)
    requires Agree(s) && s.row.Some? && (fromOnDemand ==> !Live(s))
    requires EffectiveRuntimeMode(s.services[s.row.value.service], mode) == LongRunning
    ensures Agree(EnterLongRunning(s, mode, fromOnDemand, f).0)
  {
    hide StartLocked, RollBackMode;
    var s1 := Write(s, s.row.value.(mode := mode), true);
    if !Live(s1) {
      StartLockedAgrees(s1, f.start);
      FailedStartNotLive(s1, f.start);
      if StartLocked(s1, f.start).1 != Ok {
        RollBackAgrees(StartLocked(s1, f.start).0, s.row.value.mode, f);
      }
    }
  }

  lemma FailedStartNotLive(s: Sys, f: StartFate)
    requires Sound(s) && !Live(s)
    ensures StartLocked(s, f).1 != Ok ==> !Live(StartLocked(s, f).0)
  {
    hide StartWithAttempt;
    StartShape(Bump(s), 0, s.generation + 1, f);
  }

  lemma SetModeAgrees(s: Sys, mode: Option<RuntimeMode>, f: ModeFate)
    requires Agree(s)
    ensures Agree(SetRuntimeMode(s, mode, f).0)
  {
    hide KeepMode, StopAndLand, EnterLongRunning;
    if !s.cancelled && Known(s) {
      var after := EffectiveRuntimeMode(s.services[s.row.value.service], mode);
      var s1 := FlagScaleToZero(s, after == ScaleToZero);
      assert Agree(s1);
      StopAndLandAgrees(Bump(s1), s1.row.value, mode, f);
      if Mode(s) == after {
        KeepModeAgrees(s1, mode, after, f);
      } else if after == LongRunning {
        EnterLongRunningAgrees(s1, mode, Mode(s) == OnDemand, f);
      }
    }
  }

  lemma ApplyModeAgrees(s: Sys, f: ApplyFate)
    requires Agree(s)
    ensures Agree(ApplyServiceRuntimeMode(s, f).0)
  {
    hide RestartLocked;
    if Known(s) {
      RestartLockedAgrees(Bump(s), s.row.value.enabled, f.restart);
    }
  }

  lemma ConvergeAgrees(s: Sys, row: Row, merged: Row, before: RuntimeMode, after: RuntimeMode,
                       tracked: bool, contentChanged: bool, f: CreateFate)
    requires Agree(s) && s.row == Some(merged) && after == Mode(s)
    requires (!tracked ==> !Live(s)) && (before == OnDemand ==> !Live(s))
    ensures Agree(Converge(s, row, merged, before, after, tracked, contentChanged, f).0)
  {
    hide StartLocked, RestartLocked, ConvergeOnDemand, LeaveOnDemand;
    if before == OnDemand {
      FromOnDemandAgrees(s, row, merged, after, f);
    }
    RestartLockedAgrees(s, merged.enabled, f.restart);
    if !Live(s) {
      StartLockedAgrees(s, f.start);
    }
  }

  lemma FromOnDemandAgrees(s: Sys, row: Row, merged: Row, after: RuntimeMode, f: CreateFate)
    requires Agree(s) && s.row == Some(merged) && !Live(s)
    ensures Agree(ConvergeOnDemand(s, row, merged, f).0)
    ensures Agree(LeaveOnDemand(s, row, merged, after, f).0)
  {
    hide StartLocked, StopProcess;
    StopAgrees(Bump(s), merged, true, f.stop);
    StartLockedAgrees(s, f.start);
    FailedStartNotLive(s, f.start);
  }

  lemma CreateNewAgrees(s: Sys, req: CreateRequest, f: CreateFate)
    requires Agree(s) && s.row.None? && req.service in s.services
    ensures Agree(CreateNew(s, req, f).0)
  {
    hide StartLocked;
    var svc := s.services[req.service];
    var mode := EffectiveRuntimeMode(svc, req.mode);
    var start := req.start && mode == LongRunning;
    var row := Row(req.service, RequestName(s, req), svc.nodeEntry, req.config, req.secret, req.mode,
                   req.start || mode != LongRunning,
                   if mode == OnDemand then Running else if start then Starting else Stopped, None, "");
    StartLockedAgrees(Write(s, row, true), f.start);
  }

  lemma CreateNoopAgrees(s: Sys, req: CreateRequest, f: CreateFate)
    requires Agree(s) && s.row.Some? && req.service == s.row.value.service
    ensures Agree(CreateNoop(s, req, f).0)
  {
    hide StartLocked;
    if !Live(s) {
      StartLockedAgrees(s, f.start);
    }
  }

  lemma CommitMergedAgrees(s: Sys, merged: Row, f: CreateFate)
    requires Sound(s) && !Live(s) && merged.service in s.services
    ensures Agree(CommitMerged(s, merged, f).0)
  {
  }

  lemma CreateChangedAgrees(s: Sys, req: CreateRequest, f: CreateFate)
    requires Agree(s) && Known(s) && req.service in s.services
    ensures Agree(CreateChanged(s, req, f).0)
  {
    hide SwitchToOnDemand, Converge, FlagScaleToZero;
    var svc, row := s.services[req.service], s.row.value;
    var merged := Merged(s, row, req, svc);
    var after := EffectiveRuntimeMode(svc, req.mode);
    SwitchAgrees(s, row, merged, f);
    if after != OnDemand || Mode(s) == OnDemand {
      var s1 := FlagScaleToZero(Write(s, merged, true), after == ScaleToZero);
      MergedAgrees(s, merged, after == ScaleToZero);
      ConvergeAgrees(s1, row, merged, Mode(s), after, Live(s), ContentChanged(row, req, svc), f);
    }
  }

  lemma SwitchAgrees(s: Sys, row: Row, merged: Row, f: CreateFate)
    requires Agree(s) && s.row == Some(row) && merged.service in s.services
    ensures Agree(SwitchToOnDemand(s, row, merged, f).0)
  {
    hide StopProcess, CommitMerged;
    StopAgrees(Bump(s), row, true, f.stop);
    CommitMergedAgrees(StopProcess(Bump(s), row, true, f.stop).0, merged, f);
    if !Live(s) {
      CommitMergedAgrees(Bump(s), merged, f);
    }
  }

  /** The merged row keeps what the live process vouches for. */
  lemma MergedAgrees(s: Sys, merged: Row, flag: bool)
    requires Agree(s) && s.row.Some? && merged.service in s.services
    requires merged == s.row.value.(service := merged.service, name := merged.name, nodeEntry := merged.nodeEntry,
                                    mode := merged.mode, config := merged.config, secret := merged.secret)
    requires EffectiveRuntimeMode(s.services[merged.service], merged.mode) == OnDemand ==> Mode(s) == OnDemand
    ensures var t := FlagScaleToZero(Write(s, merged, true), flag);
      Agree(t) && t.row == Some(merged) && t.services == s.services && (Live(t) <==> Live(s))
  {
  }

  lemma CreateAgrees(s: Sys, req: CreateRequest, f: CreateFate)
    requires Agree(s)
    ensures Agree(CreateInstance(s, req, f).0)
  {
    hide CreateNew, CreateNoop, CreateChanged;
    if req.service in s.services {
      if s.row.None? {
        CreateNewAgrees(s, req, f);
      } else if Unchanged(s, s.row.value, req, s.services[req.service]) {
        CreateNoopAgrees(s, req, f);
      } else {
        CreateChangedAgrees(s, req, f);
      }
    }
  }

  lemma EnsureAgrees(s: Sys, f: EnsureFate)
    requires Agree(s)
    ensures Agree(EnsureStarted(s, f).0)
  {
    hide StartLocked;
    if !Live(s) {
      StartLockedAgrees(s.(startFailure := None, lastActivity := Some(f.now)), f.start);
    }
  }

  lemma TimerAgrees(o: Sys, s: Sys, i: nat, f: TimerFate)
    requires Inv(o, s) && Agree(s)
    ensures Agree(TimerFire(s, i, f))
  {
    hide StartWithAttempt, Inv, Fresh, Unclaimed;
    if i < |s.timers| && s.timers[i].pending {
      DisarmKeeps(o, s, i);
      var t, s1 := s.timers[i], Disarm(s, i);
      if t.generation == s.generation {
        StartAgrees(s1, t.attempt, t.generation, f.start);
        StartShape(s1, t.attempt, t.generation, f.start);
      }
    }
  }

  lemma ReconcileAgrees(s: Sys, step: Step)
    requires Agree(s) && (step.DoSurplus? || step.DoStale? || step.DoMissing?)
    ensures Agree(Next(s, step))
  {
    hide Agree, ReconcileSurplus, ReconcileMissing;
    match step
    case DoSurplus(f) => SurplusAgrees(s, f);
    case DoMissing(f) => MissingAgrees(s, f);
    case DoStale(f) => StaleAgrees(s, f);
  }

  lemma SurplusAgrees(s: Sys, f: ReconcileFate)
    requires Agree(s)
    ensures Agree(ReconcileSurplus(s, f).0)
  {
    hide StopProcess;
    if s.row.Some? {
      StopAgrees(s, s.row.value, s.row.value.enabled, f.stop);
    }
  }

  lemma StaleAgrees(s: Sys, f: ReconcileFate)
    requires Agree(s)
    ensures Agree(ReconcileStale(s, f).0)
  {
  }

  lemma MissingAgrees(s: Sys, f: ReconcileFate)
    requires Agree(s)
    ensures Agree(ReconcileMissing(s, f).0)
  {
    hide StartLocked;
    if s.row.Some? && s.tracked.None? {
      StartLockedAgrees(s, f.start);
      StartLockedAgrees(Write(s, ColdRow(s.row.value), true), f.start);
    }
  }

  lemma ControlAgrees(s: Sys, step: Step)
    requires Agree(s)
    requires step.DoStart? || step.DoStop? || step.DoRestart? || step.DoRestartIfWarm? || step.DoShutdownStop?
             || step.DoUpdate? || step.DoPark?
    ensures Agree(Next(s, step))
  {
    hide Next, Agree;
    if step.DoStart? {
      StartStepAgrees(s, step);
    } else if step.DoStop? || step.DoShutdownStop? || step.DoPark? {
      StopStepAgrees(s, step);
    } else {
      RestartStepAgrees(s, step);
    }
  }

  lemma StartStepAgrees(s: Sys, step: Step)
    requires Agree(s) && step.DoStart?
    ensures Agree(Next(s, step))
  {
    hide StartLocked;
    if !Live(s) {
      StartLockedAgrees(s, step.start);
    }
  }

  lemma StopStepAgrees(s: Sys, step: Step)
    requires Agree(s) && (step.DoStop? || step.DoShutdownStop? || step.DoPark?)
    ensures Agree(Next(s, step))
  {
    hide StopProcess;
    if s.row.Some? {
      match step
      case DoStop(_, f) => StopAgrees(s, s.row.value, false, f);
      case DoShutdownStop(_, f) => StopAgrees(s, s.row.value, s.row.value.enabled, f);
      case DoPark(_, f) => StopAgrees(s, s.row.value, true, f.stop);
    }
  }

  lemma RestartStepAgrees(s: Sys, step: Step)
    requires Agree(s) && (step.DoRestart? || step.DoRestartIfWarm? || step.DoUpdate?)
    ensures Agree(Next(s, step))
  {
    hide StopThenStart, RestartLocked;
    if s.row.Some? {
      match step
      case DoRestart(f) => StopThenStartAgrees(s, s.row.value.enabled, f);
      case DoRestartIfWarm(_, f) => RestartLockedAgrees(s, s.row.value.enabled, f);
      case DoUpdate(edit, _, _, _, f) => RestartLockedAgrees(Write(s, Edited(s.row.value, edit), true), s.row.value.enabled, f);
    }
  }

  lemma NextAgrees(o: Sys, s: Sys, step: Step)
    requires Inv(o, s) && Agree(s) && KeepsModes(s, step)
    ensures Agree(Next(s, step))
  {
    hide Inv, UpdateContent, Delete, SetRuntimeMode, ApplyServiceRuntimeMode, CreateInstance, EnsureStarted, TimerFire;
    match step
    case DoDelete(f) => DeleteAgrees(s, f);
    case DoSetMode(mode, f) => SetModeAgrees(s, mode, f);
    case DoApplyMode(f) => ApplyModeAgrees(s, f);
    case DoCreate(req, f) => CreateAgrees(s, req, f);
    case DoEnsure(f) => EnsureAgrees(s, f);
    case DoTimer(i, f) => TimerAgrees(o, s, i, f);
    case DoSurplus(f) => ReconcileAgrees(s, step);
    case DoStale(f) => ReconcileAgrees(s, step);
    case DoMissing(f) => ReconcileAgrees(s, step);
    case DoStart(f) => ControlAgrees(s, step);
    case DoStop(_, f) => ControlAgrees(s, step);
    case DoRestart(f) => ControlAgrees(s, step);
    case DoRestartIfWarm(_, f) => ControlAgrees(s, step);
    case DoShutdownStop(_, f) => ControlAgrees(s, step);
    case DoUpdate(_, _, _, _, f) => ControlAgrees(s, step);
    case DoPark(_, f) => ControlAgrees(s, step);
    case DoWake(_, _) => WakeAgrees(s, step);
    case _ => SmallStepAgrees(s, step);
  }

  lemma WakeAgrees(s: Sys, step: Step)
    requires Agree(s) && step.DoWake?
    ensures Agree(Next(s, step))
  {
  }

  lemma SmallStepAgrees(s: Sys, step: Step)
    requires Agree(s) && KeepsModes(s, step)
    requires step.DoRename? || step.DoTouch? || step.DoOsExit? || step.DoReap? || step.DoRelease?
             || step.DoKillOrphan? || step.DoImport? || step.DoCancel?
    ensures Agree(Next(s, step))
  {
    hide Next, Agree;
    if step.DoImport? {
      ImportAgrees(s, step);
    } else if step.DoOsExit? || step.DoReap? || step.DoKillOrphan? {
      ProcessAgrees(s, step);
    } else {
      BookAgrees(s, step);
    }
  }

  lemma ImportAgrees(s: Sys, step: Step)
    requires Agree(s) && KeepsModes(s, step) && step.DoImport?
    ensures Agree(Next(s, step))
  {
  }

  lemma ProcessAgrees(s: Sys, step: Step)
    requires Agree(s) && (step.DoOsExit? || step.DoReap? || step.DoKillOrphan?)
    ensures Agree(Next(s, step))
  {
  }

  lemma BookAgrees(s: Sys, step: Step)
    requires Agree(s) && (step.DoRename? || step.DoTouch? || step.DoRelease? || step.DoCancel?)
    ensures Agree(Next(s, step))
  {
  }

  lemma {:induction false} RunAgrees(o: Sys, s: Sys, steps: seq<Step>)
    requires Inv(o, s) && Agree(s) && ModesFixed(s, steps)
    ensures Agree(Run(s, steps))
    decreases |steps|
  {
    hide Inv, Agree, Next, KeepsModes;
    if steps != [] {
      NextAgrees(o, s, steps[0]);
      NextKeeps(o, s, steps[0]);
      RunAgrees(o, Next(s, steps[0]), steps[1..]);
    }
  }

  /**
   * Whenever the gate is free and a live tracked process exists, its row is enabled and
   * running and carries exactly its pid and an address - store failures included.
   */
  lemma RowAgreesWithProcess(before: Sys, steps: seq<Step>)
    requires Initial(before) && (before.row.Some? ==> Known(before)) && ModesFixed(before, steps)
    ensures var s := Run(before, steps);
      Live(s) && s.heap[s.tracked.value].alive ==>
        Known(s) && Vouches(s.row.value, s.heap[s.tracked.value]) && Mode(s) != OnDemand
  {
    RunAgrees(before, before, steps);
  }

  /** The steps that work behind a caller's back. */
  predicate Background(step: Step) {
    step.DoWake? || step.DoTimer? || step.DoSurplus? || step.DoStale? || step.DoMissing? || step.DoRename?
  }

  /** An exit watcher, a backoff timer, a reconcile pass or a rename that comes after a
      successor started leaves the successor tracked and its row alone. */
  lemma BackgroundSparesSuccessor(before: Sys, steps: seq<Step>, step: Step)
    requires Initial(before) && (before.row.Some? ==> Known(before)) && ModesFixed(before, steps)
    requires var s := Run(before, steps); Live(s) && s.heap[s.tracked.value].alive && Background(step)
    ensures var s := Run(before, steps); SparesSuccessor(s, Next(s, step), step)
  {
    InitialAgrees(before);
    hide Next, Run, ModesFixed, SparesSuccessor, Background, Initial, Agree, Inv;
    RunAgrees(before, before, steps);
    RunKeeps(before, before, steps);
    StepSpares(before, Run(before, steps), step);
  }

  lemma InitialAgrees(before: Sys)
    requires Initial(before) && (before.row.Some? ==> Known(before))
    ensures Inv(before, before) && Agree(before)
  {
  }

  /** The successor stays tracked and as it was, and its row changes in its name at most. */
  predicate SparesSuccessor(s: Sys, t: Sys, step: Step)
    requires s.tracked.Some? && s.tracked.value < |s.heap|
  {
    && t.tracked == s.tracked && s.tracked.value < |t.heap| && t.heap[s.tracked.value] == s.heap[s.tracked.value]
    && s.row.Some? && t.row.Some? && t.row.value == s.row.value.(name := t.row.value.name)
    && (!step.DoRename? ==> t.row == s.row)
  }

  lemma StepSpares(o: Sys, s: Sys, step: Step)
    requires Inv(o, s) && Agree(s) && Live(s) && s.heap[s.tracked.value].alive && Background(step)
    ensures SparesSuccessor(s, Next(s, step), step)
  {
    hide Next, SparesSuccessor, Agree;
    if step.DoWake? {
      WakeSpares(s, step);
    } else if step.DoTimer? {
      TimerSpares(s, step);
    } else if step.DoRename? {
      RenameSpares(s, step);
    } else {
      ReconcileSpares(s, step);
    }
  }

  lemma WakeSpares(s: Sys, step: Step)
    requires ProcsOk(s) && Agree(s) && Live(s) && step.DoWake?
    ensures SparesSuccessor(s, Next(s, step), step)
  {
    assert ProcOk(s.heap[s.tracked.value]);
    hide Arm;
  }

  /** A pending timer is of an older generation than the successor. */
  lemma TimerSpares(s: Sys, step: Step)
    requires ProcsOk(s) && ChainsOk(s) && Agree(s) && Live(s) && step.DoTimer?
    ensures SparesSuccessor(s, Next(s, step), step)
  {
    hide StartWithAttempt, Arm;
    assert step.i < |s.timers| && s.timers[step.i].pending ==> s.timers[step.i].generation < s.generation;
    hide ProcsOk, ChainsOk;
  }

  lemma RenameSpares(s: Sys, step: Step)
    requires Agree(s) && Live(s) && step.DoRename?
    ensures SparesSuccessor(s, Next(s, step), step)
  {
  }

  lemma ReconcileSpares(s: Sys, step: Step)
    requires Agree(s) && Live(s) && s.heap[s.tracked.value].alive && (step.DoSurplus? || step.DoStale? || step.DoMissing?)
    ensures SparesSuccessor(s, Next(s, step), step)
  {
    hide StartLocked, StopProcess;
  }
}
