/** Every interleaving for one instance id: gated operations are atomic steps, and exits,
    watchers, timers, requests, the importer and Shutdown are steps of their own. */
module Machine {
  import opened Domain
  import opened Lifecycle
  import opened Operations

  datatype Step =
    | DoStart(start: StartFate)
    | DoStop(read: bool, stop: StopFate)
    | DoRestart(restart: RestartFate)
    | DoRestartIfWarm(read: bool, restart: RestartFate)
    | DoRename(name: string, ok: bool)
    | DoUpdate(edit: Edit, reload: bool, valid: bool, ok: bool, restart: RestartFate)
    | DoDelete(delete: DeleteFate)
    | DoSetMode(mode: Option<RuntimeMode>, modeFate: ModeFate)
    | DoApplyMode(apply: ApplyFate)
    | DoCreate(req: CreateRequest, create: CreateFate)
    | DoEnsure(ensure: EnsureFate)
    | DoRelease(ticket: nat)
    | DoTouch(now: int)
    | DoPark(scannedAt: int, park: ParkFate)
    | DoOsExit(h: nat)
    | DoReap(h: nat)
    | DoWake(h: nat, wake: WakeFate)
    | DoTimer(i: nat, timer: TimerFate)
    | DoSurplus(reconcile: ReconcileFate)
    | DoStale(reconcile: ReconcileFate)
    | DoMissing(reconcile: ReconcileFate)
    | DoKillOrphan(h: nat)
    | DoImport(service: string, svc: Service)
    | DoCancel
    | DoShutdownStop(read: bool, stop: StopFate)

  function Next(s: Sys, step: Step): Sys {
    match step
    case DoStart(f) => Start(s, f).0
    case DoStop(read, f) => Stop(s, read, f).0
    case DoRestart(f) => Restart(s, f).0
    case DoRestartIfWarm(read, f) => RestartIfWarm(s, read, f).0
    case DoRename(name, ok) => Rename(s, name, ok)
    case DoUpdate(edit, reload, valid, ok, f) => UpdateContent(s, edit, reload, valid, ok, f).0
    case DoDelete(f) => Delete(s, f).0
    case DoSetMode(mode, f) => SetRuntimeMode(s, mode, f).0
    case DoApplyMode(f) => ApplyServiceRuntimeMode(s, f).0
    case DoCreate(req, f) => CreateInstance(s, req, f).0
    case DoEnsure(f) => EnsureStarted(s, f).0
    case DoRelease(t) => Release(s, t)
    case DoTouch(now) => Touch(s, now)
    case DoPark(scannedAt, f) => Park(s, scannedAt, f).0
    case DoOsExit(h) => OsExit(s, h)
    case DoReap(h) => Reap(s, h)
    case DoWake(h, f) => Wake(s, h, f)
    case DoTimer(i, f) => TimerFire(s, i, f)
    case DoSurplus(f) => ReconcileSurplus(s, f).0
    case DoStale(f) => ReconcileStale(s, f).0
    case DoMissing(f) => ReconcileMissing(s, f).0
    case DoKillOrphan(h) => KillOrphan(s, h)
    case DoImport(service, svc) => s.(services := s.services[service := svc])
    case DoCancel => CancelLifecycle(s)
    case DoShutdownStop(read, f) => ShutdownStop(s, read, f).0
  }

  function Run(s: Sys, steps: seq<Step>): Sys
    decreases |steps|
  {
    if steps == [] then s else Run(Next(s, steps[0]), steps[1..])
  }

  /** A daemon's first view of an id: whatever rows the store holds, and nothing running. */
  predicate Initial(s: Sys) {
    && s.tracked == None && s.heap == [] && s.generation == 0 && s.timers == [] && s.tickets == []
    && s.wg == 0 && !s.cancelled
  }

  lemma {:induction false} RunAppend(s: Sys, a: seq<Step>, b: seq<Step>)
    ensures Run(s, a + b) == Run(Run(s, a), b)
    decreases |a|
  {
    if a == [] {
      assert a + b == b;
    } else {
      assert (a + b)[0] == a[0] && (a + b)[1..] == a[1..] + b;
      RunAppend(Next(s, a[0]), a[1..], b);
    }
  }
}
