/**
 * Request refs end to end: any number of gateway calls, whose goroutines drop their refs
 * through a once guard in any order and as often as they like, among all the daemon's steps.
 */
module Requests {
  import opened Domain
  import opened Lifecycle
  import opened Operations
  import opened Machine
  import opened Ownership
  import opened Guarantees

  /** What a call holds: its release closure and the guard around it. */
  datatype Hold = Hold(ticket: nat, released: bool)

  datatype Traffic = Traffic(sys: Sys, holds: seq<Hold>)

  datatype Move =
    | Daemon(step: Step)           // anything but taking or giving back a ref
    | Warm(ensure: EnsureFate)     // a call asks for the instance
    | Drop(i: nat)                 // call i, on any path, drops its ref

  /** sync.Once around the closure: the guard afterwards, and whether the closure is called. */
  function OnceGuarded(h: Hold): (Hold, bool) {
    (h.(released := true), !h.released)
  }

  predicate ByDaemon(step: Step) {
    !step.DoEnsure? && !step.DoRelease?
  }

  function Moved(t: Traffic, m: Move): Traffic {
    match m
    case Daemon(step) => if ByDaemon(step) then t.(sys := Next(t.sys, step)) else t
    case Warm(f) =>
      var (s, err) := EnsureStarted(t.sys, f);
      Traffic(s, if err == Ok then t.holds + [Hold(|t.sys.tickets|, false)] else t.holds)
    case Drop(i) =>
      if i >= |t.holds| then t
      else
        var (h, call) := OnceGuarded(t.holds[i]);
        Traffic(if call then Release(t.sys, h.ticket) else t.sys, t.holds[i := h])
  }

  function Flow(t: Traffic, moves: seq<Move>): Traffic
    decreases |moves|
  {
    if moves == [] then t else Flow(Moved(t, moves[0]), moves[1..])
  }

  // ----- the daemon's own steps leave tickets alone ----------------------------

  lemma StopTickets(s: Sys, row: Row, enabled: bool, f: StopFate)
    ensures StopProcess(s, row, enabled, f).0.tickets == s.tickets
  {
  }

  lemma RegisterTickets(s: Sys, row: Row, p: Proc, f: StartFate)
    ensures Register(s, row, p, f).0.tickets == s.tickets
  {
  }

  lemma StartTickets(s: Sys, attempt: nat, g: nat, f: StartFate)
    ensures StartWithAttempt(s, attempt, g, f).0.tickets == s.tickets
  {
    hide Register;
    if !s.cancelled && Known(s) && f.spawn && f.announce {
      var running := s.row.value.(enabled := true, status := Running, addr := "127.0.0.1:" + f.port, pid := Some(f.pid));
      var p := NewProc(f.pid, attempt, g, Mode(s) == ScaleToZero);
      RegisterTickets(CancelIf(Write(s, running, true), f.cancelEarly), running, p, f);
    }
  }

  lemma StartLockedTickets(s: Sys, f: StartFate)
    ensures StartLocked(s, f).0.tickets == s.tickets
  {
    hide StartWithAttempt;
    StartTickets(Bump(s), 0, s.generation + 1, f);
  }

  lemma StopThenStartTickets(s: Sys, wasEnabled: bool, f: RestartFate)
    requires s.row.Some?
    ensures StopThenStart(s, wasEnabled, f).0.tickets == s.tickets
  {
    hide StopProcess, StartLocked;
    StopTickets(s, s.row.value, wasEnabled, f.stop);
    StartLockedTickets(StopProcess(s, s.row.value, wasEnabled, f.stop).0, f.start);
  }

  lemma RestartLockedTickets(s: Sys, wasEnabled: bool, f: RestartFate)
    ensures RestartLocked(s, wasEnabled, f).0.tickets == s.tickets
  {
    hide StopThenStart;
    var s0 := ExitTracked(s, f.exit);
    if s0.row.Some? {
      StopThenStartTickets(s0, wasEnabled, f);
    }
  }

  lemma StopAndLandTickets(s: Sys, row: Row, mode: Option<RuntimeMode>, f: ModeFate)
    ensures StopAndLand(s, row, mode, f).0.tickets == s.tickets
  {
    hide StopProcess;
    StopTickets(s, row, true, f.stop);
  }

  lemma KeepModeTickets(s: Sys, mode: Option<RuntimeMode>, after: RuntimeMode, f: ModeFate)
    requires s.row.Some?
    ensures KeepMode(s, mode, after, f).0.tickets == s.tickets
  {
    hide StartLocked, StopAndLand;
    var row := s.row.value.(mode := mode);
    StartLockedTickets(Write(s, row, true), f.start);
    StopAndLandTickets(Write(s, row, true), row, mode, f);
  }

  lemma RollBackTickets(s: Sys, previous: Option<RuntimeMode>, f: ModeFate)
    ensures RollBackMode(s, previous, f).tickets == s.tickets
  {
    hide StopProcess;
    if s.row.Some? {
      StopTickets(s, s.row.value, true, f.stop);
    }
  }

  lemma EnterLongRunningTickets(s: Sys, mode: Option<RuntimeMode>, fromOnDemand: bool, f: ModeFate)
    requires s.row.Some?
    ensures EnterLongRunning(s, mode, fromOnDemand, f).0.tickets == s.tickets
  {
    hide StartLocked, RollBackMode;
    var s1 := Write(s, s.row.value.(mode := mode), true);
    StartLockedTickets(s1, f.start);
    RollBackTickets(StartLocked(s1, f.start).0, s.row.value.mode, f);
  }

  lemma SetModeTickets(s: Sys, mode: Option<RuntimeMode>, f: ModeFate)
    ensures SetRuntimeMode(s, mode, f).0.tickets == s.tickets
  {
    hide KeepMode, EnterLongRunning, StopAndLand, FlagScaleToZero;
    if Known(s) {
      var after := EffectiveRuntimeMode(s.services[s.row.value.service], mode);
      var s1 := FlagScaleToZero(s, after == ScaleToZero);
      FlagTickets(s, after == ScaleToZero);
      KeepModeTickets(s1, mode, after, f);
      StopAndLandTickets(Bump(s1), s.row.value, mode, f);
      EnterLongRunningTickets(s1, mode, Mode(s) == OnDemand, f);
    }
  }

  lemma FlagTickets(s: Sys, flag: bool)
    ensures FlagScaleToZero(s, flag).tickets == s.tickets && FlagScaleToZero(s, flag).row == s.row
  {
  }

  lemma ApplyModeTickets(s: Sys, f: ApplyFate)
    ensures ApplyServiceRuntimeMode(s, f).0.tickets == s.tickets
  {
    hide StopProcess, RestartLocked;
    if s.row.Some? {
      StopTickets(Bump(s), s.row.value, s.row.value.enabled, f.stop);
      RestartLockedTickets(Bump(s), s.row.value.enabled, f.restart);
    }
  }

  lemma ConvergeTickets(s: Sys, row: Row, merged: Row, before: RuntimeMode, after: RuntimeMode,
                        tracked: bool, contentChanged: bool, f: CreateFate)
    requires s.row.Some?
    ensures Converge(s, row, merged, before, after, tracked, contentChanged, f).0.tickets == s.tickets
  {
    hide StopProcess, RestartLocked, StartLocked;
    StopTickets(Bump(s), merged, true, f.stop);
    RestartLockedTickets(s, merged.enabled, f.restart);
    StartLockedTickets(s, f.start);
  }

  lemma SwitchTickets(s: Sys, row: Row, merged: Row, f: CreateFate)
    ensures SwitchToOnDemand(s, row, merged, f).0.tickets == s.tickets
  {
    hide StopProcess;
    StopTickets(Bump(s), row, true, f.stop);
  }

  lemma CreateChangedTickets(s: Sys, req: CreateRequest, f: CreateFate)
    requires Known(s) && req.service in s.services
    ensures CreateChanged(s, req, f).0.tickets == s.tickets
  {
    hide Converge, SwitchToOnDemand, FlagScaleToZero;
    var svc, row := s.services[req.service], s.row.value;
    var merged := Merged(s, row, req, svc);
    var after := EffectiveRuntimeMode(svc, req.mode);
    SwitchTickets(s, row, merged, f);
    FlagTickets(Write(s, merged, true), after == ScaleToZero);
    ConvergeTickets(FlagScaleToZero(Write(s, merged, true), after == ScaleToZero), row, merged, Mode(s), after,
                    Live(s), ContentChanged(row, req, svc), f);
  }

  lemma CreateTickets(s: Sys, req: CreateRequest, f: CreateFate)
    ensures CreateInstance(s, req, f).0.tickets == s.tickets
  {
    hide CreateChanged, StartLocked;
    StartLockedTickets(s, f.start);
    if req.service in s.services {
      if s.row.None? {
        CreateNewTickets(s, req, f);
        hide CreateNew;
      } else if Known(s) {
        CreateChangedTickets(s, req, f);
      }
    }
  }

  lemma CreateNewTickets(s: Sys, req: CreateRequest, f: CreateFate)
    requires req.service in s.services
    ensures CreateNew(s, req, f).0.tickets == s.tickets
  {
    hide StartLocked;
    var svc := s.services[req.service];
    var mode := EffectiveRuntimeMode(svc, req.mode);
    var start := req.start && mode == LongRunning;
    var row := Row(req.service, RequestName(s, req), svc.nodeEntry, req.config, req.secret, req.mode,
                   req.start || mode != LongRunning,
                   if mode == OnDemand then Running else if start then Starting else Stopped, None, "");
    StartLockedTickets(Write(s, row, true), f.start);
  }

  lemma TimerTickets(s: Sys, i: nat, f: TimerFate)
    ensures TimerFire(s, i, f).tickets == s.tickets
  {
    hide StartWithAttempt;
    if i < |s.timers| {
      StartTickets(Disarm(s, i), s.timers[i].attempt, s.timers[i].generation, f.start);
    }
  }

  lemma ReconcileTickets(s: Sys, f: ReconcileFate)
    ensures ReconcileSurplus(s, f).0.tickets == s.tickets
    ensures ReconcileStale(s, f).0.tickets == s.tickets
    ensures ReconcileMissing(s, f).0.tickets == s.tickets
  {
    hide StopProcess, StartLocked;
    if s.row.Some? {
      StopTickets(s, s.row.value, s.row.value.enabled, f.stop);
      StartLockedTickets(s, f.start);
      StartLockedTickets(Write(s, ColdRow(s.row.value), true), f.start);
    }
  }

  lemma ControlTickets(s: Sys, step: Step)
    requires step.DoStart? || step.DoRestart? || step.DoRestartIfWarm? || step.DoUpdate?
    ensures Next(s, step).tickets == s.tickets
  {
    hide StartLocked, StopThenStart, RestartLocked;
    match step
    case DoStart(f) => StartLockedTickets(s, f);
    case DoRestart(f) => if s.row.Some? { StopThenStartTickets(s, s.row.value.enabled, f); }
    case DoRestartIfWarm(_, f) => if s.row.Some? { RestartLockedTickets(s, s.row.value.enabled, f); }
    case DoUpdate(edit, _, _, _, f) =>
      if s.row.Some? { RestartLockedTickets(Write(s, Edited(s.row.value, edit), true), Edited(s.row.value, edit).enabled, f); }
  }

  lemma StoppingTickets(s: Sys, step: Step)
    requires step.DoStop? || step.DoDelete? || step.DoPark? || step.DoShutdownStop?
    ensures Next(s, step).tickets == s.tickets
  {
    hide StopProcess;
    match step
    case DoStop(_, f) => if s.row.Some? { StopTickets(s, s.row.value, false, f); }
    case DoDelete(f) => if s.row.Some? { StopTickets(s, s.row.value, false, f.stop); }
    case DoPark(_, f) => if s.row.Some? { StopTickets(s, s.row.value, true, f.stop); }
    case DoShutdownStop(_, f) => if s.row.Some? { StopTickets(s, s.row.value, s.row.value.enabled, f); }
  }

  lemma DaemonKeepsTickets(s: Sys, step: Step)
    requires ByDaemon(step)
    ensures Next(s, step).tickets == s.tickets
  {
    hide Start, Stop, Restart, RestartIfWarm, UpdateContent, Delete, SetRuntimeMode, ApplyServiceRuntimeMode, CreateInstance,
         Park, ShutdownStop, TimerFire, ReconcileSurplus, ReconcileStale, ReconcileMissing;
    match step
    case DoSetMode(mode, f) => SetModeTickets(s, mode, f);
    case DoApplyMode(f) => ApplyModeTickets(s, f);
    case DoCreate(req, f) => CreateTickets(s, req, f);
    case DoTimer(i, f) => TimerTickets(s, i, f);
    case DoSurplus(f) => ReconcileTickets(s, f);
    case DoStale(f) => ReconcileTickets(s, f);
    case DoMissing(f) => ReconcileTickets(s, f);
    case DoStart(_) => ControlTickets(s, step);
    case DoStop(_, _) => StoppingTickets(s, step);
    case DoRestart(_) => ControlTickets(s, step);
    case DoRestartIfWarm(_, _) => ControlTickets(s, step);
    case DoUpdate(_, _, _, _, _) => ControlTickets(s, step);
    case DoDelete(_) => StoppingTickets(s, step);
    case DoPark(_, _) => StoppingTickets(s, step);
    case DoShutdownStop(_, _) => StoppingTickets(s, step);
    case _ =>
  }

  // ----- the guard makes the counts exact --------------------------------------

  /** Every closure is some call's, and has been called exactly if its guard has gone off. */
  predicate Guarded(t: Traffic) {
    && |t.holds| == |t.sys.tickets|
    && forall i :: 0 <= i < |t.holds| ==>
         t.holds[i].ticket == i && t.sys.tickets[i].releases == if t.holds[i].released then 1 else 0
  }

  lemma StepKeeps(o: Sys, t: Traffic, step: Step)
    requires Inv(o, t.sys) && Guarded(t) && ByDaemon(step)
    ensures Inv(o, Next(t.sys, step)) && Guarded(t.(sys := Next(t.sys, step)))
  {
    hide Next, Inv;
    NextKeeps(o, t.sys, step);
    DaemonKeepsTickets(t.sys, step);
  }

  lemma WarmKeeps(o: Sys, t: Traffic, f: EnsureFate)
    requires Inv(o, t.sys) && Guarded(t)
    ensures Inv(o, Moved(t, Warm(f)).sys) && Guarded(Moved(t, Warm(f)))
  {
    hide EnsureStarted, Inv;
    EnsureKeeps(o, t.sys, f);
    assert ProcsOk(t.sys) by { InvProcs(o, t.sys); }
    WarmTickets(t.sys, f);
  }

  lemma DropKeeps(o: Sys, t: Traffic, i: nat)
    requires Inv(o, t.sys) && Guarded(t) && i < |t.holds|
    ensures Inv(o, Moved(t, Drop(i)).sys) && Guarded(Moved(t, Drop(i)))
  {
    hide Inv;
    ReleaseKeeps(o, t.sys, i);
    InvRefs(o, t.sys);
  }

  lemma InvRefs(o: Sys, s: Sys)
    requires Inv(o, s)
    ensures RefsOk(s)
  {
  }


  lemma MoveKeeps(o: Sys, t: Traffic, m: Move)
    requires Inv(o, t.sys) && Guarded(t)
    ensures Inv(o, Moved(t, m).sys) && Guarded(Moved(t, m))
  {
    hide Next, Inv, EnsureStarted, Release, Guarded, ByDaemon;
    match m
    case Daemon(step) => if ByDaemon(step) { StepKeeps(o, t, step); }
    case Warm(f) => WarmKeeps(o, t, f);
    case Drop(i) => if i < |t.holds| { DropKeeps(o, t, i); }
  }

  lemma WarmTickets(s: Sys, f: EnsureFate)
    requires ProcsOk(s)
    ensures var (t, err) := EnsureStarted(s, f);
      if err == Ok then |t.tickets| == |s.tickets| + 1 && t.tickets[..|s.tickets|] == s.tickets && t.tickets[|s.tickets|].releases == 0
      else t.tickets == s.tickets
  {
    hide StartLocked;
    StartedHolds(s.(startFailure := None, lastActivity := Some(f.now)), f.start);
  }

  lemma {:induction false} FlowKeeps(o: Sys, t: Traffic, moves: seq<Move>)
    requires Inv(o, t.sys) && Guarded(t)
    ensures Inv(o, Flow(t, moves).sys) && Guarded(Flow(t, moves))
    decreases |moves|
  {
    hide Inv, Guarded, Moved;
    if moves != [] {
      MoveKeeps(o, t, moves[0]);
      FlowKeeps(o, Moved(t, moves[0]), moves[1..]);
    }
  }

  ghost predicate Served(t: Traffic, before: Sys, moves: seq<Move>) {
    Initial(before) && t == Flow(Traffic(before, []), moves)
  }

  lemma ServedKeeps(t: Traffic, before: Sys, moves: seq<Move>)
    requires Served(t, before, moves)
    ensures Inv(before, t.sys) && Guarded(t)
  {
    FlowKeeps(before, Traffic(before, []), moves);
  }

  /** Call i has its instance's process h and has not dropped it. */
  predicate Holding(t: Traffic, i: int, h: nat) {
    0 <= i < |t.holds| && i < |t.sys.tickets| && t.sys.tickets[i].handle == h && !t.holds[i].released
  }

  /**
   * Through any traffic, a process's refs count exactly the calls that hold it: they are
   * never negative, and zero exactly when every call on it has dropped its ref.
   */
  lemma RefsCountCalls(t: Traffic, before: Sys, moves: seq<Move>, h: nat)
    requires Served(t, before, moves) && h < |t.sys.heap|
    ensures t.sys.heap[h].refs == Holders(t.sys.tickets, |t.sys.tickets|, h) >= 0
    ensures t.sys.heap[h].refs == 0 <==> forall i :: !Holding(t, i, h)
  {
    hide Served, Inv;
    ServedKeeps(t, before, moves);
    HeldSplits(t.sys.tickets, |t.sys.tickets|, h);
    assert RefsOk(t.sys) by {
      InvRefs(before, t.sys);
    }
    if i: int :| Holding(t, i, h) {
      assert t.sys.tickets[i].releases == 0;
    } else {
      forall k | 0 <= k < |t.sys.tickets| && t.sys.tickets[k].handle == h ensures t.sys.tickets[k].releases > 0 {
        assert !Holding(t, k, h);
      }
    }
  }

  /** No park changes an instance while a call holds its process. */
  lemma NoParkUnderACall(t: Traffic, before: Sys, moves: seq<Move>, scannedAt: int, f: ParkFate, i: int)
    requires Served(t, before, moves) && t.sys.tracked.Some? && Holding(t, i, t.sys.tracked.value)
    ensures Park(t.sys, scannedAt, f) == (t.sys, false)
  {
    hide Served, Inv;
    ServedKeeps(t, before, moves);
    InvProcs(before, t.sys);
    RefsCountCalls(t, before, moves, t.sys.tracked.value);
  }
}
