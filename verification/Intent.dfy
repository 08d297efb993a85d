/** Operator intent: a stop stays a stop, and a sync never flips Enabled. */
module Intent {
  import opened Domain
  import opened Lifecycle
  import opened Operations
  import opened Machine
  import opened Ownership

  // ----- stop wins -------------------------------------------------------------

  /** Nothing tracked and the row disabled: what a landed Stop leaves. */
  predicate StoppedByOperator(s: Sys) {
    s.tracked == None && s.row.Some? && !s.row.value.enabled
  }

  /** Everything that may run without the operator asking for it: goroutines, requests,
      scans, reconcile, and what an import does to the service row and its instances. */
  predicate Unasked(step: Step) {
    step.DoWake? || step.DoTimer? || step.DoEnsure? || step.DoPark? || step.DoSurplus? || step.DoStale?
    || step.DoMissing? || step.DoRestart? || step.DoRestartIfWarm? || step.DoApplyMode? || step.DoImport?
    || step.DoOsExit? || step.DoReap? || step.DoKillOrphan? || step.DoRelease? || step.DoTouch?
    || step.DoCancel? || step.DoShutdownStop? || step.DoRename?
  }

  lemma StopLands(s: Sys, f: StopFate)
    requires s.tracked.Some? ==> s.tracked.value < |s.heap|
    requires Known(s) && Mode(s) != OnDemand && f.write
    ensures var (t, err) := Stop(s, true, f);
      StoppedByOperator(t) && |t.heap| == |s.heap| && (f.first != Seen && !f.second && s.tracked.Some? ==> err == StopError)
  {
    hide SignalAndWait;
    StopShape(s, s.row.value, false, f);
    if s.tracked.Some? {
      SignalMisses(Untrack(s), s.tracked.value, f);
    }
  }

  lemma SignalMisses(s: Sys, h: nat, f: StopFate)
    ensures f.first != Seen && !f.second ==> SignalAndWait(s, h, f).1 == StopError
  {
  }

  lemma StopThenStartStaysStopped(s: Sys, f: RestartFate)
    requires StoppedByOperator(s)
    ensures StoppedByOperator(StopThenStart(s, false, f).0)
    ensures StopThenStart(s, false, f).0.heap == s.heap
  {
  }

  lemma UnaskedStaysStopped(s: Sys, step: Step)
    requires StoppedByOperator(s) && Unasked(step)
    ensures StoppedByOperator(Next(s, step)) && |Next(s, step).heap| == |s.heap|
  {
    hide Next, StoppedByOperator;
    if step.DoRestart? || step.DoRestartIfWarm? || step.DoApplyMode? {
      RestartsStayStopped(s, step);
    } else if step.DoTimer? || step.DoMissing? || step.DoEnsure? {
      StartsStayStopped(s, step);
    } else if step.DoPark? || step.DoSurplus? || step.DoShutdownStop? || step.DoStale? {
      StopsStayStopped(s, step);
    } else if step.DoWake? || step.DoReap? || step.DoOsExit? || step.DoKillOrphan? {
      ExitStaysStopped(s, step);
    } else {
      RestStaysStopped(s, step);
    }
  }

  lemma RestartsStayStopped(s: Sys, step: Step)
    requires StoppedByOperator(s) && (step.DoRestart? || step.DoRestartIfWarm? || step.DoApplyMode?)
    ensures StoppedByOperator(Next(s, step)) && |Next(s, step).heap| == |s.heap|
  {
    hide StopThenStart, RestartLocked, StopProcess;
    if step.DoRestart? {
      StopThenStartStaysStopped(s, step.restart);
    }
  }

  lemma StartsStayStopped(s: Sys, step: Step)
    requires StoppedByOperator(s) && (step.DoTimer? || step.DoMissing? || step.DoEnsure?)
    ensures StoppedByOperator(Next(s, step)) && |Next(s, step).heap| == |s.heap|
  {
    hide StartLocked, StartWithAttempt;
  }

  lemma StopsStayStopped(s: Sys, step: Step)
    requires StoppedByOperator(s) && (step.DoPark? || step.DoSurplus? || step.DoShutdownStop? || step.DoStale?)
    ensures StoppedByOperator(Next(s, step)) && |Next(s, step).heap| == |s.heap|
  {
    hide StopProcess, PidAnswers;
    if step.DoShutdownStop? {
      StopStaysStopped(s, step.stop);
    }
  }

  lemma StopStaysStopped(s: Sys, f: StopFate)
    requires StoppedByOperator(s)
    ensures var t := StopProcess(s, s.row.value, s.row.value.enabled, f).0; StoppedByOperator(t) && |t.heap| == |s.heap|
  {
  }

  lemma RestStaysStopped(s: Sys, step: Step)
    requires StoppedByOperator(s) && (step.DoImport? || step.DoRelease? || step.DoTouch? || step.DoCancel? || step.DoRename?)
    ensures StoppedByOperator(Next(s, step)) && |Next(s, step).heap| == |s.heap|
  {
  }

  lemma ExitStaysStopped(s: Sys, step: Step)
    requires StoppedByOperator(s) && (step.DoWake? || step.DoReap? || step.DoOsExit? || step.DoKillOrphan?)
    ensures StoppedByOperator(Next(s, step)) && |Next(s, step).heap| == |s.heap|
  {
    hide Arm;
  }

  lemma {:induction false} UnaskedRunStaysStopped(s: Sys, steps: seq<Step>)
    requires StoppedByOperator(s) && forall k :: 0 <= k < |steps| ==> Unasked(steps[k])
    ensures StoppedByOperator(Run(s, steps)) && |Run(s, steps).heap| == |s.heap|
    decreases |steps|
  {
    hide Next;
    if steps != [] {
      UnaskedStaysStopped(s, steps[0]);
      UnaskedRunStaysStopped(Next(s, steps[0]), steps[1..]);
    }
  }

  lemma InitialInv(before: Sys)
    requires Initial(before)
    ensures Inv(before, before)
  {
  }

  lemma StopStep(s: Sys, f: StopFate)
    ensures Next(s, DoStop(true, f)) == Stop(s, true, f).0
  {
  }

  /**
   * Once a Stop's row write landed - even if the process was not seen to exit - no unasked
   * step starts a process or enables the row, also when imports change the mode meanwhile.
   */
  lemma StopWins(before: Sys, prefix: seq<Step>, f: StopFate, steps: seq<Step>)
    requires Initial(before)
    requires var s := Run(before, prefix); Known(s) && Mode(s) != OnDemand && f.write
    requires forall k :: 0 <= k < |steps| ==> Unasked(steps[k])
    ensures var s := Run(before, prefix);
      var t := Run(Next(s, DoStop(true, f)), steps);
      StoppedByOperator(t) && |t.heap| == |s.heap|
  {
    InitialInv(before);
    hide Run, Unasked, Stop, Inv, Initial;
    var s := Run(before, prefix);
    RunKeeps(before, before, prefix);
    InvTracked(before, s);
    StopLands(s, f);
    StopStep(s, f);
    hide Next;
    UnaskedRunStaysStopped(Next(s, DoStop(true, f)), steps);
  }

  // ----- create converges ------------------------------------------------------

  /** The part of a row the package defines. */
  predicate SameContent(a: Row, b: Row) {
    && a.service == b.service && a.name == b.name && a.nodeEntry == b.nodeEntry
    && a.config == b.config && a.secret == b.secret && a.mode == b.mode
  }

  /** The row is still there, says the same about the package, and is as enabled as before. */
  predicate RowKept(s: Sys, t: Sys) {
    && s.services == t.services && s.id == t.id
    && (s.row.Some? ==> t.row.Some? && SameContent(s.row.value, t.row.value))
  }

  predicate EnabledKept(s: Sys, t: Sys) {
    s.row.Some? ==> t.row.Some? && t.row.value.enabled == s.row.value.enabled
  }

  lemma ProbeKeepsRow(s: Sys, row: Row, h: nat, f: StartFate)
    requires s.row == Some(row) && row.enabled && h < |s.heap|
    ensures var t := Probe(s, row, h, f).0; RowKept(s, t) && t.row.value.enabled
  {
    hide DropStart;
    DropKeepsRow(Write(s, ColdRow(row).(status := Failed), f.settle), h);
    DropKeepsRow(Write(s, StoppedRow(row, true), f.settle), h);
  }

  lemma DropKeepsRow(s: Sys, h: nat)
    requires h < |s.heap|
    ensures var t := DropStart(s, h); t.row == s.row && t.services == s.services && t.id == s.id
  {
  }

  lemma RegisterKeepsRow(s: Sys, row: Row, p: Proc, f: StartFate)
    requires s.row == Some(row) && row.enabled
    ensures var t := Register(s, row, p, f).0; RowKept(s, t) && t.row.value.enabled
  {
    hide Probe, Kill;
    if s.tracked.Some? {
      KillKeepsRow(s, s.tracked.value);
    }
    if !s.cancelled && !Live(s) {
      ProbeKeepsRow(CancelIf(Spawn(s, p).(tracked := Some(|s.heap|), lastActivity := Some(f.now)), f.cancelLate), row, |s.heap|, f);
    }
  }

  lemma KillKeepsRow(s: Sys, h: nat)
    ensures var t := Kill(s, h); t.row == s.row && t.services == s.services && t.id == s.id
  {
  }

  lemma StartKeepsRow(s: Sys, attempt: nat, g: nat, f: StartFate)
    ensures var t := StartWithAttempt(s, attempt, g, f).0;
      RowKept(s, t) && (s.row.Some? && s.row.value.enabled ==> EnabledKept(s, t))
  {
    hide Register;
    if !s.cancelled && Known(s) && f.spawn && f.announce {
      var running := s.row.value.(enabled := true, status := Running, addr := "127.0.0.1:" + f.port, pid := Some(f.pid));
      var p := NewProc(f.pid, attempt, g, Mode(s) == ScaleToZero);
      RegisterKeepsRow(CancelIf(Write(s, running, true), f.cancelEarly), running, p, f);
    }
  }

  lemma StartLockedKeepsRow(s: Sys, f: StartFate)
    ensures var t := StartLocked(s, f).0;
      RowKept(s, t) && (s.row.Some? && s.row.value.enabled ==> EnabledKept(s, t))
  {
    hide StartWithAttempt;
    StartKeepsRow(Bump(s), 0, s.generation + 1, f);
  }

  lemma StopThenStartKeepsRow(s: Sys, f: RestartFate)
    requires s.row.Some?
    ensures var t := StopThenStart(s, s.row.value.enabled, f).0; RowKept(s, t) && EnabledKept(s, t)
  {
    hide StartLocked, StopProcess;
    StopKeepsRow(s, s.row.value.enabled, f.stop);
    StartLockedKeepsRow(StopProcess(s, s.row.value, s.row.value.enabled, f.stop).0, f.start);
  }

  lemma RestartLockedKeepsRow(s: Sys, f: RestartFate)
    requires s.row.Some?
    ensures var t := RestartLocked(s, s.row.value.enabled, f).0; RowKept(s, t) && EnabledKept(s, t)
  {
    hide StopThenStart;
    StopThenStartKeepsRow(ExitTracked(s, f.exit), f);
  }

  lemma ConvergeKeepsEnabled(s: Sys, row: Row, merged: Row, before: RuntimeMode, after: RuntimeMode,
                             tracked: bool, contentChanged: bool, f: CreateFate)
    requires s.row == Some(merged) && before != OnDemand && after != OnDemand
    ensures EnabledKept(s, Converge(s, row, merged, before, after, tracked, contentChanged, f).0)
  {
    hide StartLocked, RestartLocked;
    StartLockedKeepsRow(s, f.start);
    RestartLockedKeepsRow(s, f.restart);
  }

  /** Between resident modes, a create or sync never changes Enabled, whatever fails. */
  lemma SyncKeepsEnabled(s: Sys, req: CreateRequest, f: CreateFate)
    requires Known(s) && Mode(s) != OnDemand
    requires req.service in s.services ==> EffectiveRuntimeMode(s.services[req.service], req.mode) != OnDemand
    ensures var t := CreateInstance(s, req, f).0; t.row.Some? && t.row.value.enabled == s.row.value.enabled
  {
    hide StartLocked, Converge;
    StartLockedKeepsRow(s, f.start);
    if req.service in s.services {
      var svc, row := s.services[req.service], s.row.value;
      var merged := Merged(s, row, req, svc);
      var after := EffectiveRuntimeMode(svc, req.mode);
      var s1 := FlagScaleToZero(Write(s, merged, true), after == ScaleToZero);
      ConvergeKeepsEnabled(s1, row, merged, Mode(s), after, Live(s), ContentChanged(row, req, svc), f);
    }
  }

  /** The row says what the request asks for, and an on-demand row rests where it should. */
  predicate Converged(s: Sys, req: CreateRequest) {
    && req.service in s.services && s.row.Some?
    && Unchanged(s, s.row.value, req, s.services[req.service])
    && (EffectiveRuntimeMode(s.services[req.service], req.mode) == OnDemand ==>
          s.row.value.status == Running && s.row.value.pid == None && s.row.value.addr == "")
  }

  /** The one row such a call passes over: on-demand, asked for nothing new, and disabled
      under what otherwise reads as a resting row. */
  predicate LeftDisabled(s: Sys, req: CreateRequest) {
    && req.service in s.services && s.row.Some? && !s.row.value.enabled
    && Unchanged(s, s.row.value, req, s.services[req.service])
    && s.row.value.status == Running && s.row.value.pid == None && s.row.value.addr == ""
  }

  lemma CreateConverges(s: Sys, req: CreateRequest, f: CreateFate)
    requires CreateInstance(s, req, f).1 == Ok
    ensures Converged(CreateInstance(s, req, f).0, req)
    ensures EffectiveRuntimeMode(s.services[req.service], req.mode) == OnDemand ==>
              (CreateInstance(s, req, f).0.row.value.enabled <==> !LeftDisabled(s, req))
  {
    hide StartLocked, RestartLocked;
    var svc := s.services[req.service];
    if s.row.None? {
      var mode := EffectiveRuntimeMode(svc, req.mode);
      var start := req.start && mode == LongRunning;
      var row := Row(req.service, RequestName(s, req), svc.nodeEntry, req.config, req.secret, req.mode,
                     req.start || mode != LongRunning,
                     if mode == OnDemand then Running else if start then Starting else Stopped, None, "");
      StartLockedKeepsRow(Write(s, row, true), f.start);
    } else if Unchanged(s, s.row.value, req, svc) {
      StartLockedKeepsRow(s, f.start);
    } else {
      ChangedConverges(s, req, f);
    }
  }

  lemma CommitConverges(s: Sys, row: Row, req: CreateRequest, f: CreateFate)
    requires req.service in s.services && row.service == req.service && Unchanged(s, row, req, s.services[req.service])
    requires CommitMerged(s, row, f).1 == Ok
    ensures Converged(CommitMerged(s, row, f).0, req) && CommitMerged(s, row, f).0.row.value.enabled
  {
  }

  lemma ConvergeConverges(s: Sys, row: Row, req: CreateRequest, before: RuntimeMode, after: RuntimeMode,
                          tracked: bool, contentChanged: bool, f: CreateFate)
    requires req.service in s.services && s.row.Some?
    requires Unchanged(s, s.row.value, req, s.services[req.service])
    requires after == EffectiveRuntimeMode(s.services[req.service], req.mode)
    requires before != after ==> after != OnDemand
    requires Converge(s, row, s.row.value, before, after, tracked, contentChanged, f).1 == Ok
    ensures Converged(Converge(s, row, s.row.value, before, after, tracked, contentChanged, f).0, req)
    ensures after == OnDemand ==> Converge(s, row, s.row.value, before, after, tracked, contentChanged, f).0.row.value.enabled
  {
    hide StartLocked, RestartLocked, StopProcess;
    StartLockedKeepsRow(s, f.start);
    RestartLockedKeepsRow(s, f.restart);
    StopKeepsRow(Bump(s), true, f.stop);
  }

  lemma StopKeepsRow(s: Sys, enabled: bool, f: StopFate)
    requires s.row.Some?
    ensures var t := StopProcess(s, s.row.value, enabled, f).0;
      RowKept(s, t) && (t.row.value.enabled == s.row.value.enabled || t.row.value.enabled == enabled)
  {
    hide SignalAndWait;
    if s.tracked.Some? {
      SignalKeepsRow(Untrack(s), s.tracked.value, f);
    }
  }

  lemma SignalKeepsRow(s: Sys, h: nat, f: StopFate)
    ensures var t := SignalAndWait(s, h, f).0; t.row == s.row && t.services == s.services && t.id == s.id
  {
  }

  lemma ChangedConverges(s: Sys, req: CreateRequest, f: CreateFate)
    requires Known(s) && req.service in s.services && CreateChanged(s, req, f).1 == Ok
    ensures Converged(CreateChanged(s, req, f).0, req)
    ensures EffectiveRuntimeMode(s.services[req.service], req.mode) == OnDemand ==> CreateChanged(s, req, f).0.row.value.enabled
  {
    hide StopProcess, CommitMerged, Converge;
    var svc, row := s.services[req.service], s.row.value;
    var merged := Merged(s, row, req, svc);
    var after := EffectiveRuntimeMode(svc, req.mode);
    if after == OnDemand && Mode(s) != OnDemand {
      StopKeepsRow(Bump(s), true, f.stop);
      var s1 := if Live(s) || row.pid.Some? then StopProcess(Bump(s), row, true, f.stop).0 else Bump(s);
      CommitConverges(s1, merged, req, f);
    } else {
      var s1 := FlagScaleToZero(Write(s, merged, true), after == ScaleToZero);
      ConvergeConverges(s1, row, req, Mode(s), after, Live(s), ContentChanged(row, req, svc), f);
    }
  }

  /** After a successful call that left the row not failed, the same request changes nothing:
      no row, no process, no generation - whatever the second call's outcomes would be. */
  lemma CreateIsIdempotent(s: Sys, req: CreateRequest, f: CreateFate, again: CreateFate)
    ensures var (t, err) := CreateInstance(s, req, f);
      err == Ok && (t.row.Some? ==> t.row.value.status != Failed) ==> CreateInstance(t, req, again).0 == t
  {
    hide StartLocked, CreateNew, CreateChanged;
    if CreateInstance(s, req, f).1 == Ok {
      CreateConverges(s, req, f);
    }
  }
}
