/**
 * Two mode switches that do not always end where they promise: the import's background step
 * after a service becomes on-demand, and CreateInstance's rollback when the start it made
 * fails. Each with its exact condition and a run that meets it.
 */
module Switches {
  import opened Domain
  import opened Lifecycle
  import opened Operations
  import opened Machine
  import opened Ownership
  import opened Landing
  import Reconcile

  /** What a call needs of an on-demand instance: its resting row, and nothing tracked. */
  predicate Served(s: Sys) {
    Known(s) && Mode(s) == OnDemand && Resting(s.row.value) && s.tracked == None
  }

  // ----- an import turns a service on-demand -----------------------------------

  /** The stop sees the process exit and the caller is still there. */
  predicate StopSeen(f: StopFate) {
    f.first == Seen || (f.first == TimedOut && f.second)
  }

  lemma StopOutcome(s: Sys, row: Row, f: StopFate)
    requires s.row == Some(row) && f.write && (s.tracked.Some? ==> s.tracked.value < |s.heap|)
    ensures var (t, err) := StopProcess(s, row, row.enabled, f);
      && t.row == Some(ColdRow(row)) && t.services == s.services && t.tracked == None
      && (s.tracked.Some? ==> (err == Ok <==> StopSeen(f)))
  {
  }

  /**
   * The import's background step serves an enabled on-demand instance exactly when there was
   * nothing tracked, or a live process that was seen to stop.
   */
  lemma ApplyServesExactly(s: Sys, f: ApplyFate)
    requires ProcsOk(s) && Known(s) && Mode(s) == OnDemand && s.row.value.enabled && !s.cancelled
    requires f.read && f.land && f.stop.write
    ensures Served(ApplyServiceRuntimeMode(s, f).0) <==> s.tracked == None || (Live(s) && StopSeen(f.stop))
  {
    hide StopProcess;
    StopOutcome(Bump(s), s.row.value, f.stop);
  }

  /** The first way to miss: the exited entry keeps its place under a row that has landed, and
      its watcher, still to come, marks that row degraded. */
  lemma ApplyLeavesExited(s: Sys, f: ApplyFate, w: WakeFate)
    requires ProcsOk(s) && Known(s) && Mode(s) == OnDemand && s.row.value.enabled && !s.cancelled
    requires f.read && f.land && w.read && w.write && s.tracked.Some? && !Live(s)
    ensures var t := ApplyServiceRuntimeMode(s, f).0;
      && t.tracked == s.tracked && Resting(t.row.value)
      && var u := Wake(t, t.tracked.value, w);
         Known(u) && Mode(u) == OnDemand && u.row.value.enabled && u.row.value.status == Degraded
  {
    assert ProcOk(s.heap[s.tracked.value]);
  }

  /** The second: a stop not seen to end leaves the row enabled and stopped, and there it stays
      through every reconcile pass. */
  lemma ApplyLeavesStopped(s: Sys, f: ApplyFate, pass: Reconcile.PassFate)
    requires ProcsOk(s) && Known(s) && Mode(s) == OnDemand && s.row.value.enabled && !s.cancelled
    requires f.read && f.stop.write && Live(s) && !StopSeen(f.stop)
    ensures var t := ApplyServiceRuntimeMode(s, f).0;
      && Known(t) && Mode(t) == OnDemand && t.row.value == ColdRow(s.row.value) && t.tracked == None
      && Reconcile.ReconcileOne(t, pass) == t
  {
    hide StopProcess;
    StopOutcome(Bump(s), s.row.value, f.stop);
    Reconcile.FixpointsAreQuiet(ApplyServiceRuntimeMode(s, f).0);
    hide Reconcile.ReconcileOne;
  }

  const ON_DEMAND := Service(Some(OnDemand), "e")
  const LATE_STOP := StopFate(TimedOut, false, true)
  const GOOD_APPLY := ApplyFate(true, true, true, GOOD_STOP, GOOD_RESTART)
  const LATE_APPLY := ApplyFate(true, true, true, LATE_STOP, GOOD_RESTART)

  function Imported(k: nat): Sys {
    Stage(k).(services := map["svc" := ON_DEMAND])
  }

  lemma StagesReached()
    ensures Run(Empty(), [WindowStep(0), WindowStep(1), DoImport("svc", ON_DEMAND)]) == Imported(2)
    ensures Run(Empty(), [WindowStep(0), WindowStep(1), WindowStep(2), DoImport("svc", ON_DEMAND)]) == Imported(3)
  {
    WindowCreates();
    WindowWarms();
    WindowExits();
    assert Stage(0) == Empty();
    hide WindowStep, Stage, Next;
    Run3(Empty(), WindowStep(0), WindowStep(1), DoImport("svc", ON_DEMAND));
    Run4(Empty(), WindowStep(0), WindowStep(1), WindowStep(2), DoImport("svc", ON_DEMAND));
    ImportReached();
  }

  lemma ImportReached()
    ensures Next(Stage(2), DoImport("svc", ON_DEMAND)) == Imported(2)
    ensures Next(Stage(3), DoImport("svc", ON_DEMAND)) == Imported(3)
  {
  }

  lemma RunOne(s: Sys, a: Step, rest: seq<Step>)
    ensures Run(s, [a] + rest) == Run(Next(s, a), rest)
  {
    assert ([a] + rest)[1..] == rest;
  }

  lemma Run3(s: Sys, a: Step, b: Step, c: Step)
    ensures Run(s, [a, b, c]) == Next(Next(Next(s, a), b), c)
  {
    hide Next;
    RunOne(s, a, [b, c]);
    RunOne(Next(s, a), b, [c]);
    RunOne(Next(Next(s, a), b), c, []);
    assert [a, b, c] == [a] + [b, c] && [b, c] == [b] + [c] && [c] == [c] + [];
  }

  lemma Run4(s: Sys, a: Step, b: Step, c: Step, d: Step)
    ensures Run(s, [a, b, c, d]) == Next(Next(Next(Next(s, a), b), c), d)
  {
    hide Next;
    RunOne(s, a, [b, c, d]);
    assert [a, b, c, d] == [a] + [b, c, d];
    Run3(Next(s, a), b, c, d);
  }

  /** A run from an empty store: the process dies while the import makes its service on-demand,
      the background step lands the row, and the process's watcher degrades it. */
  lemma ExitedEntryDegradesRow()
    ensures Initial(Empty())
    ensures var s := Run(Empty(), [WindowStep(0), WindowStep(1), WindowStep(2), DoImport("svc", ON_DEMAND)]);
      var t := Next(Next(s, DoApplyMode(GOOD_APPLY)), DoWake(0, WakeFate(true, true, true)));
      Known(t) && Mode(t) == OnDemand && t.row.value.enabled && t.row.value.status == Degraded
  {
    hide Run, WindowStep;
    StagesReached();
    ExitedReads();
    hide Next, Imported, Stage, ApplyServiceRuntimeMode, Wake;
  }

  lemma ExitedReads()
    ensures var t := Next(Next(Imported(3), DoApplyMode(GOOD_APPLY)), DoWake(0, WakeFate(true, true, true)));
      Known(t) && Mode(t) == OnDemand && t.row.value.enabled && t.row.value.status == Degraded
  {
    ImportedExited();
    hide ApplyServiceRuntimeMode, Wake, Imported, Stage, Live, ProcsOk;
    ApplyLeavesExited(Imported(3), GOOD_APPLY, WakeFate(true, true, true));
  }

  lemma ImportedExited()
    ensures var s := Imported(3);
      ProcsOk(s) && Known(s) && Mode(s) == OnDemand && s.row.value.enabled && !s.cancelled && s.tracked == Some(0) && !Live(s)
  {
  }

  /** And one that ends with the on-demand row stopped for good: the process outlives its stop. */
  lemma LateStopLeavesRowStopped(pass: Reconcile.PassFate)
    ensures var s := Run(Empty(), [WindowStep(0), WindowStep(1), DoImport("svc", ON_DEMAND)]);
      var t := Next(s, DoApplyMode(LATE_APPLY));
      && Known(t) && Mode(t) == OnDemand && t.row.value.enabled && t.row.value.status == Stopped && t.tracked == None
      && Reconcile.ReconcileOne(t, pass) == t
  {
    hide Run, ApplyServiceRuntimeMode, Reconcile.ReconcileOne, WindowStep;
    StagesReached();
    ApplyLeavesStopped(Imported(2), LATE_APPLY, pass);
  }

  // ----- a rebound service whose start fails -----------------------------------

  /** The request takes an enabled on-demand instance to long-running. */
  predicate TurnsLongRunning(s: Sys, req: CreateRequest) {
    && Known(s) && Mode(s) == OnDemand && s.row.value.enabled && req.service in s.services
    && EffectiveRuntimeMode(s.services[req.service], req.mode) == LongRunning
  }

  /** The old override, read under the service the request binds to. */
  function RestoredMode(s: Sys, req: CreateRequest): RuntimeMode
    requires s.row.Some? && req.service in s.services
  {
    EffectiveRuntimeMode(s.services[req.service], s.row.value.mode)
  }

  /**
   * When the start fails, the rollback writes a row that rests as an on-demand one does; it
   * is one, and calls are served from it, exactly when the old override makes the new
   * service on-demand. Otherwise the row claims a process that nothing runs.
   */
  lemma RollbackServesExactly(s: Sys, req: CreateRequest, f: CreateFate)
    requires ProcsOk(s) && TurnsLongRunning(s, req)
    requires f.valid && f.file && f.write && f.rollback
    ensures var (t, err) := CreateInstance(s, req, f);
      err != Ok ==>
        && Known(t) && t.row.value.service == req.service && t.row.value.mode == s.row.value.mode
        && Resting(t.row.value) && (s.tracked == None ==> t.tracked == None) && Mode(t) == RestoredMode(s, req)
        && (Served(t) <==> RestoredMode(s, req) == OnDemand && t.tracked == None)
  {
    hide StartLocked;
    var svc, row := s.services[req.service], s.row.value;
    var merged := Merged(s, row, req, svc);
    var s1 := FlagScaleToZero(Write(s, merged, true), false);
    FailedStartUntracks(s1, f.start);
  }

  lemma FailedStartUntracks(s: Sys, f: StartFate)
    requires s.tracked.Some? ==> s.tracked.value < |s.heap|
    ensures var (t, err) := StartLocked(s, f);
      && (s.tracked == None && err != Ok ==> t.tracked == None) && t.services == s.services && t.row.Some? == s.row.Some?
  {
    hide StartWithAttempt, CameUp;
    StartShape(Bump(s), 0, s.generation + 1, f);
    StartPlaced(Bump(s), 0, s.generation + 1, f);
  }

  const FAILED_CREATE := GOOD_CREATE.(start := GOOD_START.(spawn := false))
  const ASK_A := CreateRequest("a", "", "c", "s", true, None)
  const ASK_B := CreateRequest("b", "", "c", "s", true, None)

  function TwoServices(): Sys {
    Sys("inst", None, map["a" := Service(Some(OnDemand), "e"), "b" := Service(Some(LongRunning), "e")],
        None, [], 0, None, None, [], [], 0, false)
  }

  function OnA(): Sys {
    TwoServices().(row := Some(Row("a", "inst", "e", "c", "s", None, true, Running, None, "")))
  }

  lemma CreatesOnA()
    ensures Next(TwoServices(), DoCreate(ASK_A, GOOD_CREATE)) == OnA()
  {
  }

  /** A run that meets it: an on-demand instance with no override of its own is bound to a
      long-running service, and the start fails. */
  lemma RebindLeavesNoProcess()
    ensures Initial(TwoServices())
    ensures var s := Run(TwoServices(), [DoCreate(ASK_A, GOOD_CREATE)]);
      var t := Next(s, DoCreate(ASK_B, FAILED_CREATE));
      && Served(s) && Known(t) && Mode(t) == LongRunning && Resting(t.row.value) && t.tracked == None && !Served(t)
  {
    CreatesOnA();
    RunOne(TwoServices(), DoCreate(ASK_A, GOOD_CREATE), []);
    assert [DoCreate(ASK_A, GOOD_CREATE)] + [] == [DoCreate(ASK_A, GOOD_CREATE)];
    StartFails(OnA());
    RollbackServesExactly(OnA(), ASK_B, FAILED_CREATE);
    hide Run, CreateInstance, StartLocked, RestoredMode;
  }

  lemma StartFails(s: Sys)
    requires s == OnA()
    ensures CreateInstance(s, ASK_B, FAILED_CREATE).1 == StartError
    ensures RestoredMode(s, ASK_B) == LongRunning
  {
  }
}
