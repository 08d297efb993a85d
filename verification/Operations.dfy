/** The gated operations and the goroutines that queue behind them, one function each. */
module Operations {
  import opened Domain
  import opened Lifecycle

  // ----- operator control ------------------------------------------------------

  function Start(s: Sys, f: StartFate): (Sys, Outcome) {
    if Live(s) then (s, Ok) else StartLocked(s, f)
  }

  function Stop(s: Sys, read: bool, f: StopFate): (Sys, Outcome) {
    if !read || !Known(s) then (s, Refused)
    else if Mode(s) == OnDemand then (s, Unsupported)
    else StopProcess(s, s.row.value, false, f)
  }

  datatype RestartFate = RestartFate(read: bool, exit: bool, write: bool, stop: StopFate, start: StartFate)

  function StopThenStart(s: Sys, wasEnabled: bool, f: RestartFate): (Sys, Outcome)
    requires s.row.Some?
  {
    var row := s.row.value;
    var (s1, err) := StopProcess(s, row, wasEnabled, f.stop);
    if err != Ok then (s1, err)
    else if !wasEnabled then
      if !f.write then (s1, StoreError) else (Write(s1, StoppedRow(row, false), true), Ok)
    else StartLocked(s1, f.start)
  }

  function Restart(s: Sys, f: RestartFate): (Sys, Outcome) {
    if !f.read || !Known(s) then (s, Refused)
    else if Mode(s) == OnDemand then (s, Unsupported)
    else StopThenStart(s, s.row.value.enabled, f)
  }

  /** f.exit: the process dies between the caller's check and this one. */
  function RestartLocked(s: Sys, wasEnabled: bool, f: RestartFate): (Sys, Outcome) {
    var s0 := ExitTracked(s, f.exit);
    if !f.read || !Known(s0) then (s0, Refused)
    else if Mode(s0) == OnDemand then (s0, Unsupported)
    else if !Live(s0) && Mode(s0) == ScaleToZero then
      var row := s0.row.value;
      if row.pid.Some? || row.addr != "" || row.status == Running || row.status == Starting then
        if !f.write then (s0, StoreError) else (Write(s0, ColdRow(row), true), Ok)
      else (s0, Ok)
    else StopThenStart(s0, wasEnabled, f)
  }

  function RestartIfWarm(s: Sys, read: bool, f: RestartFate): (Sys, Outcome) {
    if !read || !Known(s) then (s, Refused)
    else if Mode(s) == OnDemand then (s, Unsupported)
    else if !Live(s) then (s, Ok)
    else RestartLocked(s, s.row.value.enabled, f)
  }

  function Rename(s: Sys, name: string, ok: bool): Sys {
    if s.row.Some? then Write(s, s.row.value.(name := name), ok) else s
  }

  datatype Edit = SetConfig(config: string) | SetSecret(secret: string)

  function Edited(row: Row, edit: Edit): Row {
    match edit
    case SetConfig(c) => row.(config := c)
    case SetSecret(c) => row.(secret := c)
  }

  /** UpdateConfig and UpdateSecret. `valid` covers schema checks and the config file. */
  function UpdateContent(s: Sys, edit: Edit, restart: bool, valid: bool, ok: bool, f: RestartFate): (Sys, Outcome) {
    if !valid || !Known(s) then (s, Refused)
    else if !ok then (s, StoreError)
    else
      var s1 := Write(s, Edited(s.row.value, edit), true);
      if !restart then (s1, Ok)
      else if Mode(s1) == OnDemand then (s1, Unsupported)
      else RestartLocked(s1, s1.row.value.enabled, f)
  }

  datatype DeleteFate = DeleteFate(read: bool, remove: bool, stop: StopFate)

  function Forget(s: Sys): Sys {
    s.(lastActivity := None, startFailure := None, generation := s.generation + 1)
  }

  function Delete(s: Sys, f: DeleteFate): (Sys, Outcome) {
    if !f.read || !Known(s) then (s, Refused)
    else
      var (s1, err) :=
        if Mode(s) == OnDemand && !Live(s) then (s, Ok) else StopProcess(s, s.row.value, false, f.stop);
      if err != Ok then (s1, err)
      else if !f.remove then (s1, StoreError)
      else (Forget(s1.(row := None)), Ok)
  }

  // ----- mode changes ----------------------------------------------------------

  /** write and write2: the row writes in order; land: the write of landOnDemandRow. */
  datatype ModeFate = ModeFate(
    read: bool, reread: bool, write: bool, write2: bool, land: bool, now: int, stop: StopFate, start: StartFate)

  function SetRuntimeMode(s: Sys, mode: Option<RuntimeMode>, f: ModeFate): (Sys, Outcome) {
    if s.cancelled then (s, LifecycleOver)
    else if !f.read || !Known(s) then (s, Refused)
    else
      var after := EffectiveRuntimeMode(s.services[s.row.value.service], mode);
      var s1 := FlagScaleToZero(s, after == ScaleToZero);
      if Mode(s) == after then KeepMode(s1, mode, after, f)
      else if after == OnDemand then EnterOnDemand(s1, mode, f)
      else if after == LongRunning then EnterLongRunning(s1, mode, Mode(s) == OnDemand, f)
      else EnterScaleToZero(s1, mode, Mode(s) == OnDemand, f)
  }

  predicate Startable(status: Status) {
    status == Running || status == Stopped || status == Failed || status == Degraded
  }

  function KeepMode(s: Sys, mode: Option<RuntimeMode>, after: RuntimeMode, f: ModeFate): (Sys, Outcome)
    requires s.row.Some?
  {
    var row := s.row.value.(mode := mode);
    if !f.write then (s, StoreError)
    else
      var s1 := Write(s, row, true);
      if !f.reread then (s1, Refused)
      else if after == LongRunning && row.enabled && !Live(s1) && Startable(row.status) then StartLocked(s1, f.start)
      else if after == OnDemand && (row.pid.Some? || Live(s1)) then StopAndLand(s1, row, mode, f)
      else if after == OnDemand then Land(s1, mode, f.land)
      else (s1, Ok)
  }

  /** Stop, then commit the on-demand resting row even when the stop failed. */
  function StopAndLand(s: Sys, row: Row, mode: Option<RuntimeMode>, f: ModeFate): (Sys, Outcome) {
    var (s1, err) := StopProcess(s, row, true, f.stop);
    if err != Ok then (Land(s1, mode, f.land).0, err)
    else if !f.reread then (s1, Refused)
    else Land(s1, mode, f.write2)
  }

  function EnterOnDemand(s: Sys, mode: Option<RuntimeMode>, f: ModeFate): (Sys, Outcome)
    requires s.row.Some?
  {
    StopAndLand(Bump(s), s.row.value, mode, f)
  }

  function EnterLongRunning(s: Sys, mode: Option<RuntimeMode>, fromOnDemand: bool, f: ModeFate): (Sys, Outcome)
    requires s.row.Some?
  {
    var row := s.row.value.(mode := mode);
    if !f.write then (s, StoreError)
    else
      var s1 := Write(s, row, true);
      if !f.reread then (s1, Refused)
      else if fromOnDemand then
        if !row.enabled then
          if f.write2 then (s1, Ok) else (s1, StoreError)
        else
          var (s2, err) := StartLocked(s1, f.start);
          if err == Ok then (s2, Ok) else (RollBackMode(s2, s.row.value.mode, f), err)
      else if row.enabled && !Live(s1) then StartLocked(s1, f.start)
      else (s1, Ok)
  }

  function RollBackMode(s: Sys, previous: Option<RuntimeMode>, f: ModeFate): Sys {
    if s.row.None? then s
    else
      var s1 :=
        if s.tracked.Some? || s.row.value.pid.Some? then StopProcess(s, s.row.value, true, f.stop).0 else s;
      Land(s1, previous, f.land).0
  }

  function EnterScaleToZero(s: Sys, mode: Option<RuntimeMode>, fromOnDemand: bool, f: ModeFate): (Sys, Outcome)
    requires s.row.Some?
  {
    if fromOnDemand then
      if !f.write then (s, StoreError)
      else (Write(s, ColdRow(s.row.value).(mode := mode, enabled := true), true), Ok)
    else
      var s1 := s.(lastActivity := Some(f.now));
      if !f.write then (s1, StoreError) else (Write(s1, s.row.value.(mode := mode), true), Ok)
  }

  datatype ApplyFate = ApplyFate(read: bool, write: bool, land: bool, stop: StopFate, restart: RestartFate)

  function ApplyServiceRuntimeMode(s: Sys, f: ApplyFate): (Sys, Outcome) {
    if s.cancelled then (s, LifecycleOver)
    else if !f.read || !Known(s) then (s, Refused)
    else if Mode(s) == LongRunning then (s, Ok)
    else
      var s1, row := Bump(s), s.row.value;
      if Mode(s) == OnDemand then
        var (s2, err) := if Live(s1) then StopProcess(s1, row, row.enabled, f.stop) else (s1, Ok);
        if err != Ok then (s2, err)
        else if !row.enabled then (s2, Ok)
        else Land(s2, row.mode, f.land)
      else if Live(s1) then RestartLocked(s1, row.enabled, f.restart)
      else if !f.write then (s1, StoreError)
      else (Write(s1, ColdRow(row), true), Ok)
  }

  // ----- create or converge ----------------------------------------------------

  datatype CreateRequest = CreateRequest(
    service: string, name: string, config: string, secret: string, start: bool, mode: Option<RuntimeMode>)

  /**
   * valid: id, mode and schema checks and the read of the existing row; file: the config
   * file write; write, write2, rollback: row writes in order; land: landOnDemandRow.
   */
  datatype CreateFate = CreateFate(
    valid: bool, file: bool, write: bool, write2: bool, rollback: bool, land: bool, now: int,
    stop: StopFate, start: StartFate, restart: RestartFate)

  function RequestName(s: Sys, req: CreateRequest): string {
    if req.name == "" then s.id else req.name
  }

  predicate ContentChanged(row: Row, req: CreateRequest, svc: Service) {
    row.config != req.config || row.secret != req.secret || row.nodeEntry != svc.nodeEntry || row.service != req.service
  }

  function Merged(s: Sys, row: Row, req: CreateRequest, svc: Service): Row {
    row.(service := req.service, name := RequestName(s, req), nodeEntry := svc.nodeEntry,
         mode := req.mode, config := req.config, secret := req.secret)
  }

  /** The request asks for nothing the row does not already say. */
  predicate Unchanged(s: Sys, row: Row, req: CreateRequest, svc: Service) {
    row.mode == req.mode && !ContentChanged(row, req, svc) && row.name == RequestName(s, req)
  }

  function CreateInstance(s: Sys, req: CreateRequest, f: CreateFate): (Sys, Outcome) {
    if !f.valid || req.service !in s.services then (s, Refused)
    else if s.row.None? then CreateNew(s, req, f)
    else if Unchanged(s, s.row.value, req, s.services[req.service]) then CreateNoop(s, req, f)
    else if s.row.value.service !in s.services then (s, Refused)
    else CreateChanged(s, req, f)
  }

  function CreateNew(s: Sys, req: CreateRequest, f: CreateFate): (Sys, Outcome)
    requires req.service in s.services
  {
    var svc := s.services[req.service];
    var mode := EffectiveRuntimeMode(svc, req.mode);
    var start := req.start && mode == LongRunning;
    var row := Row(req.service, RequestName(s, req), svc.nodeEntry, req.config, req.secret, req.mode,
                   req.start || mode != LongRunning,
                   if mode == OnDemand then Running else if start then Starting else Stopped, None, "");
    if !f.file || !f.write then (s, StoreError)
    else if start then StartLocked(Write(s, row, true), f.start)
    else (Write(s, row, true), Ok)
  }

  function CreateNoop(s: Sys, req: CreateRequest, f: CreateFate): (Sys, Outcome)
    requires s.row.Some? && req.service in s.services
  {
    var row := s.row.value;
    var mode := EffectiveRuntimeMode(s.services[req.service], row.mode);
    if mode == OnDemand && (row.status != Running || row.pid.Some? || row.addr != "") then
      Land(s, row.mode, f.land)
    else if row.enabled && row.status == Failed && ResidentMode(mode) && !Live(s) then
      if mode == LongRunning then StartLocked(s, f.start)
      else if !f.write then (s, StoreError)
      else (Write(s, ColdRow(row), true), Ok)
    else (s, Ok)
  }

  function CreateChanged(s: Sys, req: CreateRequest, f: CreateFate): (Sys, Outcome)
    requires Known(s) && req.service in s.services
  {
    var svc, row := s.services[req.service], s.row.value;
    var merged := Merged(s, row, req, svc);
    var after := EffectiveRuntimeMode(svc, req.mode);
    if after == OnDemand && Mode(s) != OnDemand then SwitchToOnDemand(s, row, merged, f)
    else if !f.file || !f.write then (s, StoreError)
    else
      Converge(FlagScaleToZero(Write(s, merged, true), after == ScaleToZero), row, merged, Mode(s), after,
               Live(s), ContentChanged(row, req, svc), f)
  }

  function SwitchToOnDemand(s: Sys, row: Row, merged: Row, f: CreateFate): (Sys, Outcome) {
    if Live(s) || row.pid.Some? then
      var (s1, err) := StopProcess(Bump(s), row, true, f.stop);
      if err != Ok then
        if !f.file || !f.land then (s1, err)
        else (Write(s1, LandedRow(merged, merged.mode), true), err)
      else CommitMerged(s1, merged, f)
    else CommitMerged(Bump(s), merged, f)
  }

  /** The tail of a switch into on-demand: write the merged row, then land it. */
  function CommitMerged(s: Sys, merged: Row, f: CreateFate): (Sys, Outcome) {
    if !f.file || !f.write then (s, StoreError)
    else Land(FlagScaleToZero(Write(s, merged, true), false), merged.mode, f.land)
  }

  /** What happens after the merged row is written, by the mode before and after. */
  function Converge(s: Sys, row: Row, merged: Row, before: RuntimeMode, after: RuntimeMode,
                    tracked: bool, contentChanged: bool, f: CreateFate): (Sys, Outcome)
    requires s.row.Some?
  {
    var warm := tracked || row.pid.Some?;
    if before == after && after == OnDemand then ConvergeOnDemand(s, row, merged, f)
    else if before == after then
      if contentChanged && warm then RestartLocked(s, merged.enabled, f.restart)
      else if contentChanged && merged.enabled && (row.status == Failed || row.status == Degraded) then
        if after == LongRunning then StartLocked(s, f.start)
        else if !f.write2 then (s, StoreError)
        else (Write(s, ColdRow(merged), true), Ok)
      else (s, Ok)
    else if before == OnDemand then LeaveOnDemand(s, row, merged, after, f)
    else if !merged.enabled then (s, Ok)
    else if warm && contentChanged then RestartLocked(s, merged.enabled, f.restart)
    else if warm && after == ScaleToZero then (s.(lastActivity := Some(f.now)), Ok)
    else if !warm && after == LongRunning then StartLocked(s, f.start)
    else (s, Ok)
  }

  function ConvergeOnDemand(s: Sys, row: Row, merged: Row, f: CreateFate): (Sys, Outcome) {
    if Live(s) || row.pid.Some? then
      var (s1, err) := StopProcess(Bump(s), merged, true, f.stop);
      if err != Ok then (Land(s1, merged.mode, f.land).0, err) else Land(s1, merged.mode, f.land)
    else Land(s, merged.mode, f.land)
  }

  /** The rollback restores the old override but keeps the new service, as the source does. */
  function LeaveOnDemand(s: Sys, row: Row, merged: Row, after: RuntimeMode, f: CreateFate): (Sys, Outcome) {
    if after == ScaleToZero then
      if !f.write2 then (s, StoreError) else (Write(s, ColdRow(merged), true), Ok)
    else if merged.enabled then
      var (s1, err) := StartLocked(s, f.start);
      if err == Ok then (s1, Ok)
      else (Write(s1, LandedRow(merged, row.mode), f.rollback), err)
    else (s, Ok)
  }

  // ----- requests --------------------------------------------------------------

  const START_FAILURE_WINDOW := 1000

  /** goneAtGate, goneAfter: the request's context is done when it wins the gate, or when
      the start it led returns. Times are milliseconds. */
  datatype EnsureFate = EnsureFate(
    goneAtGate: bool, read: bool, now: int, start: StartFate, failedAt: int, goneAfter: bool)

  /** A ticket for the request, at the end of Sys.tickets, exactly when the outcome is Ok. */
  function TakeRef(s: Sys): Sys {
    if s.tracked.Some? && s.tracked.value < |s.heap| then
      var h := s.tracked.value;
      s.(heap := s.heap[h := s.heap[h].(refs := s.heap[h].refs + 1)],
         tickets := s.tickets + [Ticket(h, 0)])
    else s
  }

  function EnsureStarted(s: Sys, f: EnsureFate): (Sys, Outcome) {
    if f.goneAtGate then (s, CallerGone)
    else if Live(s) then (TakeRef(s.(lastActivity := Some(f.now))), Ok)
    else if !f.read || s.row.None? then (s, Refused)
    else if !s.row.value.enabled then (s, Refused)
    else if s.startFailure.Some? && f.now - s.startFailure.value < START_FAILURE_WINDOW then (s, StartError)
    else
      var (s1, err) := StartLocked(s.(startFailure := None, lastActivity := Some(f.now)), f.start);
      if err != Ok then (s1.(startFailure := Some(f.failedAt)), err)
      else if f.goneAfter then (s1, CallerGone)
      else (TakeRef(s1.(startFailure := None)), Ok)
  }

  /** releaseRef through the closure that ticket t stands for. */
  function Release(s: Sys, t: nat): Sys {
    if t < |s.tickets| && s.tickets[t].handle < |s.heap| then
      var h := s.tickets[t].handle;
      s.(tickets := s.tickets[t := s.tickets[t].(releases := s.tickets[t].releases + 1)],
         heap := s.heap[h := s.heap[h].(refs := s.heap[h].refs - 1)])
    else s
  }

  function Touch(s: Sys, now: int): Sys {
    if s.tracked.Some? then s.(lastActivity := Some(now)) else s
  }

  // ----- scale to zero ---------------------------------------------------------

  datatype ParkFate = ParkFate(read: bool, stop: StopFate)

  predicate Parkable(s: Sys, scannedAt: int) {
    && s.tracked.Some? && s.tracked.value < |s.heap|
    && s.heap[s.tracked.value].refs <= 0
    && (s.lastActivity.None? || s.lastActivity.value <= scannedAt)
    && Known(s) && Mode(s) == ScaleToZero
  }

  /** parkIfStillIdle and parkLocked; the bool is what the scan is told. */
  function Park(s: Sys, scannedAt: int, f: ParkFate): (Sys, bool) {
    if !Parkable(s, scannedAt) || !f.read then (s, false)
    else
      var (s1, err) := StopProcess(s, s.row.value, true, f.stop);
      (s1, err == Ok)
  }

  // ----- goroutines ------------------------------------------------------------

  datatype WakeFate = WakeFate(read: bool, lookup: bool, write: bool)

  function Finish(s: Sys, h: nat): Sys
    requires h < |s.heap|
  {
    s.(heap := s.heap[h := s.heap[h].(watcher := Finished)], wg := s.wg - 1)
  }

  function Arm(s: Sys, attempt: nat, generation: nat): Sys {
    if s.cancelled then s
    else s.(timers := s.timers + [Timer(attempt, generation, true)], wg := s.wg + 1)
  }

  /** The exit watcher of h wins the gate. */
  function Wake(s: Sys, h: nat, f: WakeFate): Sys {
    if h >= |s.heap| || s.heap[h].watcher != AtGate then s
    else if s.tracked != Some(h) then Finish(s, h)
    else
      var p, s1 := s.heap[h], Finish(s, h).(tracked := None, lastActivity := None);
      if s.cancelled || !f.read || s.row.None? then s1
      else
        var row := s.row.value;
        if !row.enabled || (row.pid.Some? && row.pid.value != p.pid) then s1
        else
          var scaleToZero := if f.lookup && Known(s) then Mode(s) == ScaleToZero else p.scaleToZero;
          if scaleToZero then Write(s1, ColdRow(row).(status := Degraded), f.write)
          else Arm(Write(s1, row.(status := Degraded, pid := None), f.write), p.attempt + 1, p.generation)
  }

  datatype TimerFate = TimerFate(read: bool, start: StartFate, write: bool)

  function Disarm(s: Sys, i: nat): Sys
    requires i < |s.timers|
  {
    s.(timers := s.timers[i := s.timers[i].(pending := false)], wg := s.wg - 1)
  }

  /** Backoff timer i goes off, or its goroutine sees the lifecycle end. */
  function TimerFire(s: Sys, i: nat, f: TimerFate): Sys {
    if i >= |s.timers| || !s.timers[i].pending then s
    else
      var t, s1 := s.timers[i], Disarm(s, i);
      if s.cancelled || t.generation != s.generation || !f.read || s.row.None? || !s.row.value.enabled then s1
      else
        var row := s.row.value;
        var (s2, err) := StartWithAttempt(s1, t.attempt, t.generation, f.start);
        if err == Ok || s2.cancelled || s2.generation != t.generation then s2
        else Arm(Write(s2, row.(status := Degraded, pid := None), f.write), t.attempt + 1, t.generation)
  }

  // ----- reconcile -------------------------------------------------------------

  datatype ReconcileFate = ReconcileFate(
    read: bool, probe: bool, write: bool, land: bool, stop: StopFate, start: StartFate)

  /** pidAlive && pidOwnedByInstance: free, except that a running tracked process answers. */
  predicate PidAnswers(s: Sys, f: ReconcileFate) {
    && s.row.Some? && s.row.value.pid.Some?
    && (f.probe || (s.tracked.Some? && s.tracked.value < |s.heap|
                    && s.heap[s.tracked.value].alive && s.heap[s.tracked.value].pid == s.row.value.pid.value))
  }

  predicate Surplus(s: Sys) {
    Known(s) && s.tracked.Some? && !(s.row.value.enabled && ResidentMode(Mode(s)))
  }

  function ReconcileSurplus(s: Sys, f: ReconcileFate): (Sys, Outcome) {
    if !f.read || !Surplus(s) then (s, Ok)
    else
      var (s1, err) := StopProcess(s, s.row.value, s.row.value.enabled, f.stop);
      if Mode(s) == OnDemand then (Land(s1, s.row.value.mode, f.land).0, err) else (s1, err)
  }

  predicate ClaimsResident(s: Sys, mode: RuntimeMode) {
    Known(s) && s.row.value.enabled && ClaimsLiveness(s.row.value.status) && Mode(s) == mode
  }

  function ReconcileStale(s: Sys, f: ReconcileFate): (Sys, Outcome) {
    if !f.read || !ClaimsResident(s, ScaleToZero) || PidAnswers(s, f) || s.tracked.Some? then (s, Ok)
    else if !f.write then (s, StoreError)
    else (Write(s, ColdRow(s.row.value), true), Ok)
  }

  function ReconcileMissing(s: Sys, f: ReconcileFate): (Sys, Outcome) {
    if !f.read || !ClaimsResident(s, LongRunning) then (s, Ok)
    else if s.row.value.pid.Some? && !PidAnswers(s, f) && !f.write then (s, StoreError)
    else
      var s1 := if s.row.value.pid.Some? && !PidAnswers(s, f) then Write(s, ColdRow(s.row.value), true) else s;
      if s1.tracked.Some? then (s1, Ok) else StartLocked(s1, f.start)
  }

  /** The orphan pass signals only a pid that is not the tracked one. */
  function KillOrphan(s: Sys, h: nat): Sys {
    if s.tracked == Some(h) then s else Kill(s, h)
  }

  // ----- shutdown --------------------------------------------------------------

  function ShutdownStop(s: Sys, read: bool, f: StopFate): (Sys, Outcome) {
    if !read || !Known(s) then (s, Refused)
    else if !ResidentMode(Mode(s)) then (s, Ok)
    else StopProcess(s, s.row.value, s.row.value.enabled, f)
  }
}
