/**
 * The supervisor's lifecycle code in the source's own order of writes, branches and early
 * returns. The object holds what the supervisor's maps hold under one instance id; every
 * method is proved to take its state exactly where the machine's step functions say.
 */
module Supervisor {
  import opened Domain
  import opened Lifecycle
  import Ops = Operations
  import Machine

  class InstanceSlot {
    const id: string
    var row: Option<Row>
    var services: map<string, Service>
    var tracked: Option<nat>
    var heap: seq<Proc>
    var generation: nat
    var lastActivity: Option<int>
    var startFailure: Option<int>
    var timers: seq<Timer>
    var tickets: seq<Ticket>
    var wg: int
    var cancelled: bool

    constructor (id: string, row: Option<Row>, services: map<string, Service>)
      ensures Valid() && Abs() == Sys(id, row, services, None, [], 0, None, None, [], [], 0, false)
    {
      this.id, this.row, this.services := id, row, services;
      tracked, heap, generation, lastActivity, startFailure := None, [], 0, None, None;
      timers, tickets, wg, cancelled := [], [], 0, false;
    }

    ghost predicate Valid()
      reads this
    {
      tracked.Some? ==> tracked.value < |heap|
    }

    ghost function Abs(): Sys
      reads this
    {
      Sys(id, row, services, tracked, heap, generation, lastActivity, startFailure, timers, tickets, wg, cancelled)
    }

    // ----- locked helpers ------------------------------------------------------

    predicate LiveProcessLocked()
      reads this
      requires Valid()
    {
      tracked.Some? && heap[tracked.value].closes == 0
    }

    function EffectiveMode(): RuntimeMode
      reads this
      requires row.Some? && row.value.service in services
    {
      EffectiveRuntimeMode(services[row.value.service], row.value.mode)
    }

    method NextGenerationLocked()
      modifies this`generation
      ensures generation == old(generation) + 1
    {
      generation := generation + 1;
    }

    method UpsertInstance(inst: Row, lands: bool) returns (err: Outcome)
      modifies this`row
      ensures row == if lands then Some(inst) else old(row)
      ensures err == if lands then Ok else StoreError
    {
      if lands {
        row := Some(inst);
      }
      err := if lands then Ok else StoreError;
    }

    method PersistStopped(inst: Row, enabled: bool, lands: bool) returns (err: Outcome)
      modifies this`row
      ensures row == if lands then Some(StoppedRow(inst, enabled)) else old(row)
      ensures err == if lands then Ok else StoreError
    {
      err := UpsertInstance(inst.(enabled := enabled, status := Stopped, pid := None, addr := ""), lands);
    }

    method LandOnDemandRow(override: Option<RuntimeMode>, lands: bool) returns (err: Outcome)
      modifies this`row
      ensures (Abs(), err) == Land(old(Abs()), override, lands)
    {
      if row.None? {
        return StoreError;
      }
      var inst := row.value;
      inst := inst.(mode := override);
      inst := inst.(enabled := true, status := Running);
      inst := inst.(pid := None, addr := "");
      err := UpsertInstance(inst, lands);
    }

    method CancelNow()
      modifies this`cancelled, this`generation
      ensures Abs() == CancelLifecycle(old(Abs()))
    {
      cancelled := true;
      if generation > 0 {
        NextGenerationLocked();
      }
    }

    // ----- starting ------------------------------------------------------------

    /** cleanupFailedStart: drop the entry if it is this state, kill, wait, close done. */
    method CleanupFailedStart(h: nat)
      requires h < |heap|
      modifies this`tracked, this`heap
      ensures heap == old(heap)[h := Discarded(old(heap)[h])]
      ensures tracked == if old(tracked) == Some(h) then None else old(tracked)
    {
      if tracked == Some(h) {
        tracked := None;
      }
      heap := heap[h := heap[h].(killed := true)];
      heap := heap[h := heap[h].(reaped := true, alive := false, watcher := NoWatcher)];
      heap := heap[h := heap[h].(closes := heap[h].closes + 1)];
    }

    method StartWithAttempt(attempt: nat, gen: nat, f: StartFate) returns (err: Outcome)
      requires Valid()
      modifies this
      ensures Valid()
      ensures (Abs(), err) == Lifecycle.StartWithAttempt(old(Abs()), attempt, gen, f)
    {
      if cancelled {
        return LifecycleOver;
      }
      if !f.read || row.None? || row.value.service !in services {
        return Refused;
      }
      var inst, mode := row.value, EffectiveMode();
      if mode == OnDemand {
        return Unsupported;
      }
      if !f.prep {
        return StartError;
      }
      inst := inst.(enabled := true, status := Starting, addr := "127.0.0.1:" + f.port);
      err := UpsertInstance(inst, f.claim);
      if err != Ok {
        return;
      }
      if !f.spawn {
        var _ := UpsertInstance(inst.(status := Failed), f.settle);
        return StartError;
      }
      inst := inst.(pid := Some(f.pid), status := Running);
      err := UpsertInstance(inst, f.announce);
      if err != Ok {
        heap := heap + [NewProc(f.pid, attempt, gen, mode == ScaleToZero)
                          .(alive := false, killed := true, reaped := true, published := false)];
        return;
      }
      if f.cancelEarly {
        CancelNow();
      }
      err := TrackStarted(inst, NewProc(f.pid, attempt, gen, mode == ScaleToZero), f);
    }

    /** From the first look at the lifecycle after the process runs to the end of the start. */
    method TrackStarted(inst: Row, state: Proc, f: StartFate) returns (err: Outcome)
      requires Valid()
      modifies this
      ensures Valid()
      ensures (Abs(), err) == Register(old(Abs()), inst, state, f)
    {
      hide Probe;
      if cancelled {
        err := PutDown(inst, state, f);
        return LifecycleOver;
      }
      if tracked.Some? {
        var previous := tracked.value;
        if heap[previous].closes == 0 {
          heap := heap[previous := heap[previous].(killed := true)];
          tracked := None;
          err := PutDown(inst, state, f);
          return StartError;
        }
        tracked := None;
      }
      var h := |heap|;
      heap := heap + [state];
      tracked, lastActivity := Some(h), Some(f.now);
      err := AwaitHealth(h, inst, f);
    }

    /** A start that never got tracked: clean it up and leave a stopped, enabled row. */
    method PutDown(inst: Row, state: Proc, f: StartFate) returns (err: Outcome)
      requires Valid()
      modifies this`heap, this`row, this`tracked
      ensures heap == old(heap) + [Discarded(state)] && tracked == old(tracked)
      ensures row == if f.settle then Some(StoppedRow(inst, true)) else old(row)
    {
      var h := |heap|;
      heap := heap + [state];
      CleanupFailedStart(h);
      err := PersistStopped(inst, true, f.settle);
    }

    method AwaitHealth(h: nat, inst: Row, f: StartFate) returns (err: Outcome)
      requires Valid() && h < |heap|
      modifies this
      ensures Valid()
      ensures (Abs(), err) == Probe(CancelIf(old(Abs()), f.cancelLate), inst, h, f)
    {
      if f.cancelLate {
        CancelNow();
      }
      if !f.health {
        if cancelled {
          var _ := PersistStopped(inst, true, f.settle);
        } else {
          var _ := UpsertInstance(inst.(status := Failed, pid := None, addr := ""), f.settle);
        }
        CleanupFailedStart(h);
        return if cancelled then LifecycleOver else StartError;
      }
      if cancelled {
        CleanupFailedStart(h);
        var _ := PersistStopped(inst, true, f.settle);
        return LifecycleOver;
      }
      wg := wg + 1;
      heap := heap[h := heap[h].(watcher := Waiting)];
      return Ok;
    }

    method StartLocked(f: StartFate) returns (err: Outcome)
      requires Valid()
      modifies this
      ensures Valid()
      ensures (Abs(), err) == Lifecycle.StartLocked(old(Abs()), f)
    {
      NextGenerationLocked();
      err := StartWithAttempt(0, generation, f);
    }

    method Start(f: StartFate) returns (err: Outcome)
      requires Valid()
      modifies this
      ensures Valid()
      ensures (Abs(), err) == Ops.Start(old(Abs()), f)
    {
      if LiveProcessLocked() {
        return Ok;
      }
      err := StartLocked(f);
    }

    // ----- stopping ------------------------------------------------------------

    /** The watcher's side of an exit somebody is waiting for: reap, close done. */
    method ObserveExit(h: nat)
      requires h < |heap|
      modifies this`heap
      ensures Abs() == Lifecycle.Reap(old(Abs()), h)
    {
      if heap[h].watcher == Waiting {
        heap := heap[h := heap[h].(alive := false, reaped := true, watcher := AtGate)];
        heap := heap[h := heap[h].(closes := heap[h].closes + 1)];
      }
    }

    /** Interrupt, wait, and Kill if need be. */
    method SignalAndWait(h: nat, f: StopFate) returns (stopErr: Outcome)
      requires Valid() && h < |heap|
      modifies this`heap
      ensures Valid() && (Abs(), stopErr) == Lifecycle.SignalAndWait(old(Abs()), h, f)
    {
      if f.first == Seen {
        ObserveExit(h);
        return Ok;
      }
      heap := heap[h := heap[h].(killed := true)];
      if !f.second {
        return StopError;
      }
      ObserveExit(h);
      stopErr := if f.first == CtxDone then StopError else Ok;
    }

    method StopProcess(inst: Row, enabled: bool, f: StopFate) returns (err: Outcome)
      requires Valid()
      modifies this
      ensures Valid() && tracked == None
      ensures (Abs(), err) == Lifecycle.StopProcess(old(Abs()), inst, enabled, f)
    {
      hide Lifecycle.SignalAndWait;
      NextGenerationLocked();
      var state := tracked;
      tracked, lastActivity := None, None;
      var stopErr := Ok;
      if state.Some? {
        stopErr := SignalAndWait(state.value, f);
      }
      err := PersistStopped(inst, enabled, f.write);
      if err == Ok {
        err := stopErr;
      }
    }

    method Stop(read: bool, f: StopFate) returns (err: Outcome)
      requires Valid()
      modifies this
      ensures Valid()
      ensures (Abs(), err) == Ops.Stop(old(Abs()), read, f)
    {
      if !read || row.None? || row.value.service !in services {
        return Refused;
      }
      if EffectiveMode() == OnDemand {
        return Unsupported;
      }
      err := StopProcess(row.value, false, f);
    }

    method ShutdownStop(read: bool, f: StopFate) returns (err: Outcome)
      requires Valid()
      modifies this
      ensures Valid()
      ensures (Abs(), err) == Ops.ShutdownStop(old(Abs()), read, f)
    {
      if !read || row.None? || row.value.service !in services {
        return Refused;
      }
      var mode := EffectiveMode();
      if mode != LongRunning && mode != ScaleToZero {
        return Ok;
      }
      err := StopProcess(row.value, row.value.enabled, f);
    }

    // ----- restarting ----------------------------------------------------------

    method Restart(f: Ops.RestartFate) returns (err: Outcome)
      requires Valid()
      modifies this
      ensures Valid()
      ensures (Abs(), err) == Ops.Restart(old(Abs()), f)
    {
      if !f.read || row.None? || row.value.service !in services {
        return Refused;
      }
      var inst := row.value;
      if EffectiveMode() == OnDemand {
        return Unsupported;
      }
      var wasEnabled := inst.enabled;
      err := StopProcess(inst, wasEnabled, f.stop);
      if err != Ok {
        return;
      }
      if !wasEnabled {
        inst := inst.(enabled := false, status := Stopped, pid := None, addr := "");
        err := UpsertInstance(inst, f.write);
        return;
      }
      err := StartLocked(f.start);
    }

    /** The stop and the start of every restart; a disabled row is only stopped. */
    method StopThenStart(inst: Row, wasEnabled: bool, f: Ops.RestartFate) returns (err: Outcome)
      requires Valid() && row == Some(inst)
      modifies this
      ensures Valid()
      ensures (Abs(), err) == Ops.StopThenStart(old(Abs()), wasEnabled, f)
    {
      hide Lifecycle.StopProcess, Lifecycle.StartLocked;
      err := StopProcess(inst, wasEnabled, f.stop);
      if err != Ok {
        return;
      }
      if !wasEnabled {
        err := UpsertInstance(inst.(enabled := false, status := Stopped, pid := None, addr := ""), f.write);
        return;
      }
      err := StartLocked(f.start);
    }

    method RestartLocked(wasEnabled: bool, f: Ops.RestartFate) returns (err: Outcome)
      requires Valid()
      modifies this
      ensures Valid()
      ensures (Abs(), err) == Ops.RestartLocked(old(Abs()), wasEnabled, f)
    {
      hide Ops.StopThenStart, Lifecycle.Reap;
      if f.exit && tracked.Some? {
        ReapKeepsPlace(Abs(), tracked.value);
        ObserveExit(tracked.value);
      }
      if !f.read || row.None? || row.value.service !in services {
        return Refused;
      }
      var inst, mode := row.value, EffectiveMode();
      if mode == OnDemand {
        return Unsupported;
      }
      if !LiveProcessLocked() && mode == ScaleToZero {
        if inst.pid.Some? || inst.addr != "" || inst.status == Running || inst.status == Starting {
          inst := inst.(pid := None, addr := "", status := Stopped);
          err := UpsertInstance(inst, f.write);
          return;
        }
        return Ok;
      }
      err := StopThenStart(inst, wasEnabled, f);
    }

    method RestartIfWarm(read: bool, f: Ops.RestartFate) returns (restarted: bool, err: Outcome)
      requires Valid()
      modifies this
      ensures Valid()
      ensures (Abs(), err) == Ops.RestartIfWarm(old(Abs()), read, f)
      ensures restarted <==> read && Known(old(Abs())) && Mode(old(Abs())) != OnDemand && Live(old(Abs()))
    {
      restarted := false;
      if !read || row.None? || row.value.service !in services {
        return false, Refused;
      }
      if EffectiveMode() == OnDemand {
        return false, Unsupported;
      }
      if !LiveProcessLocked() {
        return false, Ok;
      }
      restarted := true;
      err := RestartLocked(row.value.enabled, f);
    }

    method RenameInstance(name: string, lands: bool)
      modifies this`row
      ensures Abs() == Ops.Rename(old(Abs()), name, lands)
    {
      if row.Some? {
        var _ := UpsertInstance(row.value.(name := name), lands);
      }
    }

    method UpdateContent(edit: Ops.Edit, restart: bool, valid: bool, lands: bool, f: Ops.RestartFate) returns (err: Outcome)
      requires Valid()
      modifies this
      ensures Valid()
      ensures (Abs(), err) == Ops.UpdateContent(old(Abs()), edit, restart, valid, lands, f)
    {
      hide Ops.RestartLocked;
      if !valid || row.None? || row.value.service !in services {
        return Refused;
      }
      var inst := row.value;
      match edit {
        case SetConfig(c) => inst := inst.(config := c);
        case SetSecret(c) => inst := inst.(secret := c);
      }
      err := UpsertInstance(inst, lands);
      if err != Ok || !restart {
        return;
      }
      if EffectiveMode() == OnDemand {
        return Unsupported;
      }
      err := RestartLocked(inst.enabled, f);
    }

    method DeleteInstance(f: Ops.DeleteFate) returns (err: Outcome)
      requires Valid()
      modifies this
      ensures Valid()
      ensures (Abs(), err) == Ops.Delete(old(Abs()), f)
    {
      if !f.read || row.None? || row.value.service !in services {
        return Refused;
      }
      var inst := row.value;
      if EffectiveMode() == OnDemand {
        if LiveProcessLocked() {
          err := StopProcess(inst, false, f.stop);
          if err != Ok {
            return;
          }
        }
        if !f.remove {
          return StoreError;
        }
        row := None;
        ForgetInstance();
        return Ok;
      }
      err := StopProcess(inst, false, f.stop);
      if err != Ok {
        return;
      }
      if !f.remove {
        return StoreError;
      }
      row := None;
      ForgetInstance();
    }

    method ForgetInstance()
      modifies this`lastActivity, this`startFailure, this`generation
      ensures Abs() == Ops.Forget(old(Abs()))
    {
      lastActivity, startFailure := None, None;
      NextGenerationLocked();
    }

    // ----- mode changes --------------------------------------------------------

    method SetRuntimeMode(mode: Option<RuntimeMode>, f: Ops.ModeFate) returns (err: Outcome)
      requires Valid()
      modifies this
      ensures Valid()
      ensures (Abs(), err) == Ops.SetRuntimeMode(old(Abs()), mode, f)
    {
      hide Ops.KeepMode, Ops.StopAndLand, Ops.EnterLongRunning, Ops.EnterScaleToZero, Lifecycle.FlagScaleToZero;
      if cancelled {
        return LifecycleOver;
      }
      if !f.read || row.None? || row.value.service !in services {
        return Refused;
      }
      var inst, svc := row.value, services[row.value.service];
      var before, previousMode := EffectiveMode(), inst.mode;
      var after := match mode
                   case Some(m) => m
                   case None => if svc.mode.Some? then svc.mode.value else LongRunning;
      FlagTracked(after == ScaleToZero);
      if before == after {
        err := KeepMode(mode, after, f);
      } else if after == OnDemand {
        NextGenerationLocked();
        err := StopAndLand(inst, mode, f);
      } else if after == LongRunning {
        err := EnterLongRunning(mode, previousMode, before, f);
      } else {
        err := EnterScaleToZero(inst, mode, before, f);
      }
    }

    method FlagTracked(flag: bool)
      requires Valid()
      modifies this`heap
      ensures Valid() && Abs() == Lifecycle.FlagScaleToZero(old(Abs()), flag)
    {
      if tracked.Some? {
        heap := heap[tracked.value := heap[tracked.value].(scaleToZero := flag)];
      }
    }

    method EnterScaleToZero(inst: Row, mode: Option<RuntimeMode>, before: RuntimeMode, f: Ops.ModeFate) returns (err: Outcome)
      requires Valid() && row == Some(inst) && before != ScaleToZero
      modifies this`row, this`lastActivity
      ensures Valid()
      ensures (Abs(), err) == Ops.EnterScaleToZero(old(Abs()), mode, before == OnDemand, f)
    {
      if before == LongRunning {
        lastActivity := Some(f.now);
        err := UpsertInstance(inst.(mode := mode), f.write);
      } else {
        err := UpsertInstance(inst.(mode := mode, enabled := true, status := Stopped, pid := None, addr := ""), f.write);
      }
    }

    method KeepMode(mode: Option<RuntimeMode>, after: RuntimeMode, f: Ops.ModeFate) returns (err: Outcome)
      requires Valid() && row.Some?
      modifies this
      ensures Valid()
      ensures (Abs(), err) == Ops.KeepMode(old(Abs()), mode, after, f)
    {
      hide Lifecycle.StartLocked, Ops.StopAndLand;
      var inst := row.value.(mode := mode);
      err := UpsertInstance(inst, f.write);
      if err != Ok {
        return;
      }
      if !f.reread {
        return Refused;
      }
      var live := LiveProcessLocked();
      var startable := inst.status == Running || inst.status == Stopped || inst.status == Failed || inst.status == Degraded;
      if after == LongRunning && inst.enabled && !live && startable {
        err := StartLocked(f.start);
      } else if after == OnDemand && (inst.pid.Some? || live) {
        err := StopAndLand(inst, mode, f);
      } else if after == OnDemand {
        err := LandOnDemandRow(mode, f.land);
      }
    }

    method StopAndLand(inst: Row, mode: Option<RuntimeMode>, f: Ops.ModeFate) returns (err: Outcome)
      requires Valid() && row.Some?
      modifies this
      ensures Valid()
      ensures (Abs(), err) == Ops.StopAndLand(old(Abs()), inst, mode, f)
    {
      err := StopProcess(inst, true, f.stop);
      if err != Ok {
        var _ := LandOnDemandRow(mode, f.land);
        return;
      }
      if !f.reread {
        return Refused;
      }
      err := UpsertInstance(row.value.(mode := mode, enabled := true, status := Running, pid := None, addr := ""), f.write2);
    }

    method EnterLongRunning(mode: Option<RuntimeMode>, previousMode: Option<RuntimeMode>, before: RuntimeMode, f: Ops.ModeFate)
      returns (err: Outcome)
      requires Valid() && row.Some? && previousMode == row.value.mode
      modifies this
      ensures Valid()
      ensures (Abs(), err) == Ops.EnterLongRunning(old(Abs()), mode, before == OnDemand, f)
    {
      var inst := row.value.(mode := mode);
      err := UpsertInstance(inst, f.write);
      if err != Ok {
        return;
      }
      if !f.reread {
        return Refused;
      }
      if before == OnDemand {
        if !inst.enabled {
          err := UpsertInstance(inst, f.write2);
          return;
        }
        err := StartLocked(f.start);
        if err != Ok {
          RollBack(previousMode, f);
        }
        return;
      }
      if inst.enabled && !LiveProcessLocked() {
        err := StartLocked(f.start);
      }
    }

    /** The failed on-demand to long-running switch: stop what is left, restore the override. */
    method RollBack(previousMode: Option<RuntimeMode>, f: Ops.ModeFate)
      requires Valid()
      modifies this
      ensures Valid()
      ensures Abs() == Ops.RollBackMode(old(Abs()), previousMode, f)
    {
      if row.None? {
        return;
      }
      var current := row.value;
      if tracked.Some? || current.pid.Some? {
        var _ := StopProcess(current, true, f.stop);
        current := row.value;
      }
      current := current.(mode := previousMode, enabled := true, status := Running, pid := None, addr := "");
      var _ := UpsertInstance(current, f.land);
    }

    method ApplyServiceRuntimeMode(f: Ops.ApplyFate) returns (err: Outcome)
      requires Valid()
      modifies this
      ensures Valid()
      ensures (Abs(), err) == Ops.ApplyServiceRuntimeMode(old(Abs()), f)
    {
      hide Lifecycle.StopProcess, Ops.RestartLocked;
      if cancelled {
        return LifecycleOver;
      }
      if !f.read || row.None? || row.value.service !in services {
        return Refused;
      }
      var inst, mode := row.value, EffectiveMode();
      if mode != OnDemand && mode != ScaleToZero {
        return Ok;
      }
      NextGenerationLocked();
      var live := LiveProcessLocked();
      if mode == OnDemand {
        if live {
          err := StopProcess(inst, inst.enabled, f.stop);
          if err != Ok {
            return;
          }
        }
        if !inst.enabled {
          return Ok;
        }
        err := LandOnDemandRow(inst.mode, f.land);
        return;
      }
      if live {
        err := RestartLocked(inst.enabled, f.restart);
        return;
      }
      inst := inst.(status := Stopped, pid := None, addr := "");
      err := UpsertInstance(inst, f.write);
    }

    // ----- create or converge --------------------------------------------------

    method CreateInstance(req: Ops.CreateRequest, f: Ops.CreateFate) returns (err: Outcome)
      requires Valid()
      modifies this
      ensures Valid()
      ensures (Abs(), err) == Ops.CreateInstance(old(Abs()), req, f)
    {
      hide Ops.CreateNew, Ops.CreateNoop, Ops.CreateChanged;
      if !f.valid || req.service !in services {
        return Refused;
      }
      var svc := services[req.service];
      if row.None? {
        err := CreateNew(req, svc, f);
        return;
      }
      var existing := row.value;
      var name := if req.name == "" then id else req.name;
      var modeChanged := existing.mode != req.mode;
      var contentChanged := existing.config != req.config || existing.secret != req.secret
                            || existing.nodeEntry != svc.nodeEntry || existing.service != req.service;
      var cosmeticChanged := existing.name != name;
      if !modeChanged && !contentChanged && !cosmeticChanged {
        err := RepairUnchanged(req, svc, f);
        return;
      }
      if existing.service !in services {
        return Refused;
      }
      err := CreateChanged(existing, name, req, contentChanged, f);
    }

    method CreateChanged(existing: Row, name: string, req: Ops.CreateRequest, contentChanged: bool, f: Ops.CreateFate)
      returns (err: Outcome)
      requires Valid() && row == Some(existing) && existing.service in services && req.service in services
      requires name == Ops.RequestName(Abs(), req)
      requires contentChanged == Ops.ContentChanged(existing, req, services[req.service])
      modifies this
      ensures Valid()
      ensures (Abs(), err) == Ops.CreateChanged(old(Abs()), req, f)
    {
      hide Ops.SwitchToOnDemand, Ops.Converge;
      var svc := services[req.service];
      var merged := existing.(service := req.service, name := name, nodeEntry := svc.nodeEntry);
      merged := merged.(mode := req.mode, config := req.config, secret := req.secret);
      var before := EffectiveRuntimeMode(services[existing.service], existing.mode);
      var after := EffectiveRuntimeMode(svc, merged.mode);
      var live := LiveProcessLocked();
      if after == OnDemand && before != OnDemand {
        err := SwitchToOnDemand(existing, merged, f);
        return;
      }
      if !f.file {
        return StoreError;
      }
      err := UpsertInstance(merged, f.write);
      if err != Ok {
        return;
      }
      if tracked.Some? {
        heap := heap[tracked.value := heap[tracked.value].(scaleToZero := after == ScaleToZero)];
      }
      err := Converge(existing, merged, before, after, live, contentChanged, f);
    }

    method SwitchToOnDemand(existing: Row, merged: Row, f: Ops.CreateFate) returns (err: Outcome)
      requires Valid() && row.Some?
      modifies this
      ensures Valid()
      ensures (Abs(), err) == Ops.SwitchToOnDemand(old(Abs()), existing, merged, f)
    {
      hide Lifecycle.StopProcess;
      hide Lifecycle.StopProcess;
      var live := LiveProcessLocked();
      NextGenerationLocked();
      if live || existing.pid.Some? {
        err := StopProcess(existing, true, f.stop);
        if err != Ok {
          if f.file {
            var _ := UpsertInstance(merged.(enabled := true, status := Running, pid := None, addr := ""), f.land);
          }
          return;
        }
      }
      if !f.file {
        return StoreError;
      }
      err := UpsertInstance(merged, f.write);
      if err != Ok {
        return;
      }
      if tracked.Some? {
        heap := heap[tracked.value := heap[tracked.value].(scaleToZero := false)];
      }
      err := LandOnDemandRow(merged.mode, f.land);
    }

    method CreateNew(req: Ops.CreateRequest, svc: Service, f: Ops.CreateFate) returns (err: Outcome)
      requires Valid() && req.service in services && svc == services[req.service]
      modifies this
      ensures Valid()
      ensures (Abs(), err) == Ops.CreateNew(old(Abs()), req, f)
    {
      var start, enabled, status := req.start, req.start, Stopped;
      var mode := EffectiveRuntimeMode(svc, req.mode);
      if mode == OnDemand {
        start, enabled, status := false, true, Running;
      } else if mode == ScaleToZero {
        start, enabled := false, true;
      }
      var inst := Row(req.service, req.name, svc.nodeEntry, req.config, req.secret, req.mode, enabled, status, None, "");
      if inst.name == "" {
        inst := inst.(name := id);
      }
      if start {
        inst := inst.(status := Starting);
      }
      if !f.file {
        return StoreError;
      }
      err := UpsertInstance(inst, f.write);
      if err == Ok && start {
        err := StartLocked(f.start);
      }
    }

    method RepairUnchanged(req: Ops.CreateRequest, svc: Service, f: Ops.CreateFate) returns (err: Outcome)
      requires Valid() && row.Some? && req.service in services && svc == services[req.service]
      modifies this
      ensures Valid()
      ensures (Abs(), err) == Ops.CreateNoop(old(Abs()), req, f)
    {
      var existing := row.value;
      var mode := EffectiveRuntimeMode(svc, existing.mode);
      if mode == OnDemand && (existing.status != Running || existing.pid.Some? || existing.addr != "") {
        err := LandOnDemandRow(existing.mode, f.land);
        return;
      }
      if existing.enabled && existing.status == Failed && ResidentMode(mode) {
        if !LiveProcessLocked() {
          if mode == ScaleToZero {
            err := UpsertInstance(existing.(status := Stopped, pid := None, addr := ""), f.write);
            return;
          }
          err := StartLocked(f.start);
          return;
        }
      }
      return Ok;
    }

    /** On-demand before and after: stop what still runs, and land. */
    method ConvergeOnDemand(existing: Row, merged: Row, f: Ops.CreateFate) returns (err: Outcome)
      requires Valid() && row.Some?
      modifies this
      ensures Valid()
      ensures (Abs(), err) == Ops.ConvergeOnDemand(old(Abs()), existing, merged, f)
    {
      hide Lifecycle.StopProcess;
      if LiveProcessLocked() || existing.pid.Some? {
        NextGenerationLocked();
        err := StopProcess(merged, true, f.stop);
        if err != Ok {
          var _ := LandOnDemandRow(merged.mode, f.land);
          return;
        }
      }
      err := LandOnDemandRow(merged.mode, f.land);
    }

    /** From on-demand to resident, with the rollback of a start that fails. */
    method LeaveOnDemand(existing: Row, merged: Row, after: RuntimeMode, f: Ops.CreateFate) returns (err: Outcome)
      requires Valid() && row.Some?
      modifies this
      ensures Valid()
      ensures (Abs(), err) == Ops.LeaveOnDemand(old(Abs()), existing, merged, after, f)
    {
      hide Lifecycle.StartLocked;
      err := Ok;
      if after == ScaleToZero {
        err := UpsertInstance(merged.(status := Stopped, pid := None, addr := ""), f.write2);
      } else if merged.enabled {
        err := StartLocked(f.start);
        if err != Ok {
          var back := merged.(mode := existing.mode, enabled := true, status := Running, pid := None, addr := "");
          var _ := UpsertInstance(back, f.rollback);
        }
      }
    }

    method Converge(existing: Row, merged: Row, before: RuntimeMode, after: RuntimeMode, live: bool,
                    contentChanged: bool, f: Ops.CreateFate) returns (err: Outcome)
      requires Valid() && row.Some? && (before == after || after != OnDemand)
      modifies this
      ensures Valid()
      ensures (Abs(), err) == Ops.Converge(old(Abs()), existing, merged, before, after, live, contentChanged, f)
    {
      hide Ops.ConvergeOnDemand, Ops.LeaveOnDemand, Ops.RestartLocked, Lifecycle.StartLocked;
      err := Ok;
      if before == after {
        if after == OnDemand {
          err := ConvergeOnDemand(existing, merged, f);
        } else if contentChanged {
          if live || existing.pid.Some? {
            err := RestartLocked(merged.enabled, f.restart);
          } else if merged.enabled && (existing.status == Failed || existing.status == Degraded) {
            if after == ScaleToZero {
              err := UpsertInstance(merged.(status := Stopped, pid := None, addr := ""), f.write2);
            } else {
              err := StartLocked(f.start);
            }
          }
        }
      } else if before == OnDemand {
        err := LeaveOnDemand(existing, merged, after, f);
      } else if before == LongRunning {
        if merged.enabled && (live || existing.pid.Some?) {
          if contentChanged {
            err := RestartLocked(merged.enabled, f.restart);
          } else {
            lastActivity := Some(f.now);
          }
        }
      } else if merged.enabled {
        if live || existing.pid.Some? {
          if contentChanged {
            err := RestartLocked(merged.enabled, f.restart);
          }
        } else {
          err := StartLocked(f.start);
        }
      }
    }

    // ----- requests ------------------------------------------------------------

    method TakeRef() returns (ticket: nat)
      requires Valid() && tracked.Some?
      modifies this`heap, this`tickets
      ensures Abs() == Ops.TakeRef(old(Abs()))
      ensures ticket == |old(tickets)| && |tickets| == ticket + 1 && |heap| == |old(heap)|
    {
      var h := tracked.value;
      heap := heap[h := heap[h].(refs := heap[h].refs + 1)];
      ticket := |tickets|;
      tickets := tickets + [Ticket(h, 0)];
    }

    /** The ticket stands for the returned release closure. */
    method EnsureStarted(f: Ops.EnsureFate) returns (ticket: Option<nat>, err: Outcome)
      requires Valid()
      modifies this
      ensures Valid()
      ensures (Abs(), err) == Ops.EnsureStarted(old(Abs()), f)
      ensures err == Ok ==> ticket == Some(|old(tickets)|)
      ensures err != Ok ==> ticket == None
    {
      hide Lifecycle.StartLocked, Lifecycle.StartWithAttempt, Ops.TakeRef;
      ticket := None;
      if f.goneAtGate {
        return None, CallerGone;
      }
      if LiveProcessLocked() {
        lastActivity := Some(f.now);
        var t := TakeRef();
        return Some(t), Ok;
      }
      if !f.read || row.None? {
        return None, Refused;
      }
      if !row.value.enabled {
        return None, Refused;
      }
      if startFailure.Some? {
        if f.now - startFailure.value < Ops.START_FAILURE_WINDOW {
          return None, StartError;
        }
        startFailure := None;
      }
      lastActivity := Some(f.now);
      ghost var before := Abs();
      err := StartLocked(f.start);
      StartedIsTracked(before, f.start);
      if err != Ok {
        startFailure := Some(f.failedAt);
        return;
      }
      if f.goneAfter {
        return None, CallerGone;
      }
      startFailure := None;
      var t := TakeRef();
      ticket := Some(t);
    }

    method ReleaseRef(ticket: nat)
      modifies this`heap, this`tickets
      ensures Abs() == Ops.Release(old(Abs()), ticket)
    {
      if ticket < |tickets| && tickets[ticket].handle < |heap| {
        var h := tickets[ticket].handle;
        tickets := tickets[ticket := tickets[ticket].(releases := tickets[ticket].releases + 1)];
        heap := heap[h := heap[h].(refs := heap[h].refs - 1)];
      }
    }

    method TouchInstance(now: int)
      modifies this`lastActivity
      ensures Abs() == Ops.Touch(old(Abs()), now)
    {
      if tracked.Some? {
        lastActivity := Some(now);
      }
    }

    method ParkIfStillIdle(scannedAt: int, f: Ops.ParkFate) returns (parked: bool)
      requires Valid()
      modifies this
      ensures Valid()
      ensures (Abs(), parked) == Ops.Park(old(Abs()), scannedAt, f)
    {
      var isTracked := tracked.Some?;
      var touched := lastActivity.Some? && lastActivity.value > scannedAt;
      var refHeld := tracked.Some? && heap[tracked.value].refs > 0;
      if !isTracked || touched || refHeld {
        return false;
      }
      parked := ParkLocked(f);
    }

    method ParkLocked(f: Ops.ParkFate) returns (parked: bool)
      requires Valid() && tracked.Some?
      modifies this
      ensures Valid()
      ensures var s := old(Abs());
        if f.read && Known(s) && Mode(s) == ScaleToZero
        then Abs() == Lifecycle.StopProcess(s, s.row.value, true, f.stop).0
             && parked == (Lifecycle.StopProcess(s, s.row.value, true, f.stop).1 == Ok)
        else Abs() == s && !parked
    {
      if !f.read || row.None? || row.value.service !in services {
        return false;
      }
      if EffectiveMode() != ScaleToZero {
        return false;
      }
      if row.value.pid.None? && tracked.None? {
        return false;
      }
      var err := StopProcess(row.value, true, f.stop);
      return err == Ok;
    }

    // ----- goroutines ----------------------------------------------------------

    /** wait, from winning the gate on; the exit and close(done) are ObserveExit. */
    /** The watcher leaves; the entry that was its own goes with it. */
    method LeaveGate(h: nat) returns (own: bool)
      requires Valid() && h < |heap|
      modifies this`tracked, this`lastActivity, this`heap, this`wg
      ensures Valid() && own == (old(tracked) == Some(h))
      ensures Abs() == if own then Ops.Finish(old(Abs()), h).(tracked := None, lastActivity := None) else Ops.Finish(old(Abs()), h)
    {
      own := tracked == Some(h);
      if own {
        tracked, lastActivity := None, None;
      }
      heap := heap[h := heap[h].(watcher := Finished)];
      wg := wg - 1;
    }

    method WaitAtGate(h: nat, f: Ops.WakeFate)
      requires Valid() && h < |heap| && heap[h].watcher == AtGate
      modifies this
      ensures Valid()
      ensures Abs() == Ops.Wake(old(Abs()), h, f)
    {
      var state := heap[h];
      FinishKeepsRest(Abs(), h);
      hide Ops.Arm, Ops.Finish;
      var own := LeaveGate(h);
      if !own || cancelled || !f.read || row.None? || !row.value.enabled {
        return;
      }
      if row.value.pid.Some? && row.value.pid.value != state.pid {
        return;
      }
      DegradeAfterExit(state, f);
    }

    /** The exit owns the row: mark it degraded, and restart it unless it scales to zero. */
    method DegradeAfterExit(state: Proc, f: Ops.WakeFate)
      requires row.Some?
      modifies this`row, this`timers, this`wg
      ensures var s := old(Abs());
        var scaleToZero := if f.lookup && Known(s) then Mode(s) == ScaleToZero else state.scaleToZero;
        Abs() == if scaleToZero then Write(s, ColdRow(s.row.value).(status := Degraded), f.write)
                 else Ops.Arm(Write(s, s.row.value.(status := Degraded, pid := None), f.write),
                              state.attempt + 1, state.generation)
    {
      var inst := row.value;
      var scaleToZero := state.scaleToZero;
      if f.lookup && inst.service in services {
        scaleToZero := EffectiveMode() == ScaleToZero;
      }
      if scaleToZero {
        var _ := UpsertInstance(inst.(status := Degraded, pid := None, addr := ""), f.write);
        return;
      }
      var _ := UpsertInstance(inst.(status := Degraded, pid := None), f.write);
      ScheduleRestartAfterBackoff(state.attempt + 1, state.generation);
    }

    method ScheduleRestartAfterBackoff(attempt: nat, gen: nat)
      modifies this`timers, this`wg
      ensures Abs() == Ops.Arm(old(Abs()), attempt, gen)
    {
      if cancelled {
        return;
      }
      wg := wg + 1;
      timers := timers + [Timer(attempt, gen, true)];
    }

    method RestartAfterBackoff(i: nat, f: Ops.TimerFate)
      requires Valid() && i < |timers| && timers[i].pending
      modifies this
      ensures Valid()
      ensures Abs() == Ops.TimerFire(old(Abs()), i, f)
    {
      hide Lifecycle.StartWithAttempt, Ops.Arm;
      var attempt, gen := timers[i].attempt, timers[i].generation;
      timers := timers[i := timers[i].(pending := false)];
      wg := wg - 1;
      if cancelled || generation != gen {
        return;
      }
      if !f.read || row.None? || !row.value.enabled {
        return;
      }
      var inst := row.value;
      var err := StartWithAttempt(attempt, gen, f.start);
      if err == Ok {
        return;
      }
      if cancelled || generation != gen {
        return;
      }
      var _ := UpsertInstance(inst.(status := Degraded, pid := None), f.write);
      ScheduleRestartAfterBackoff(attempt + 1, gen);
    }

    // ----- reconcile -----------------------------------------------------------

    predicate PidAnswers(inst: Row, probe: bool)
      reads this
      requires Valid()
    {
      && inst.pid.Some?
      && (probe || (tracked.Some? && heap[tracked.value].alive && heap[tracked.value].pid == inst.pid.value))
    }

    method ReconcileSurplus(f: Ops.ReconcileFate) returns (err: Outcome)
      requires Valid()
      modifies this
      ensures Valid()
      ensures (Abs(), err) == Ops.ReconcileSurplus(old(Abs()), f)
    {
      hide Lifecycle.StopProcess;
      if !f.read || row.None? || row.value.service !in services || tracked.None? {
        return Ok;
      }
      var inst, mode := row.value, EffectiveMode();
      if inst.enabled && ResidentMode(mode) {
        return Ok;
      }
      ghost var before := Abs();
      err := StopProcess(inst, inst.enabled, f.stop);
      StoppedKeepsPlace(before, inst.enabled, f.stop);
      if mode == OnDemand {
        var _ := LandOnDemandRow(inst.mode, f.land);
      }
    }

    method ReconcileStale(f: Ops.ReconcileFate) returns (err: Outcome)
      requires Valid()
      modifies this
      ensures Valid()
      ensures (Abs(), err) == Ops.ReconcileStale(old(Abs()), f)
    {
      if !f.read || row.None? || row.value.service !in services {
        return Ok;
      }
      var inst := row.value;
      if !inst.enabled || !ClaimsLiveness(inst.status) || EffectiveMode() != ScaleToZero {
        return Ok;
      }
      if PidAnswers(inst, f.probe) || tracked.Some? {
        return Ok;
      }
      err := UpsertInstance(inst.(pid := None, addr := "", status := Stopped), f.write);
    }

    method ReconcileMissing(f: Ops.ReconcileFate) returns (err: Outcome)
      requires Valid()
      modifies this
      ensures Valid()
      ensures (Abs(), err) == Ops.ReconcileMissing(old(Abs()), f)
    {
      hide Lifecycle.StartLocked;
      if !f.read || row.None? || row.value.service !in services {
        return Ok;
      }
      var inst := row.value;
      if !inst.enabled || !ClaimsLiveness(inst.status) || EffectiveMode() != LongRunning {
        return Ok;
      }
      if inst.pid.Some? && !PidAnswers(inst, f.probe) {
        err := UpsertInstance(inst.(pid := None, addr := "", status := Stopped), f.write);
        if err != Ok {
          return;
        }
      }
      if tracked.Some? {
        return Ok;
      }
      err := StartLocked(f.start);
    }

    // ----- one step, and runs --------------------------------------------------

    /** An operator's call. */
    method Control(step: Machine.Step)
      requires Valid() && (step.DoStart? || step.DoStop? || step.DoRestart? || step.DoRestartIfWarm? || step.DoRename?
                           || step.DoUpdate? || step.DoDelete? || step.DoSetMode? || step.DoApplyMode? || step.DoCreate?)
      modifies this
      ensures Valid() && Abs() == Machine.Next(old(Abs()), step)
    {
      hide Ops.Start, Ops.Stop, Ops.Restart, Ops.RestartIfWarm, Ops.Rename, Ops.UpdateContent, Ops.Delete,
           Ops.SetRuntimeMode, Ops.ApplyServiceRuntimeMode, Ops.CreateInstance, Ops.EnsureStarted, Ops.Release,
           Ops.Touch, Ops.Park, Ops.Wake, Ops.TimerFire, Ops.ReconcileSurplus, Ops.ReconcileStale,
           Ops.ReconcileMissing, Ops.ShutdownStop, Lifecycle.CancelLifecycle, Ops.KillOrphan, Lifecycle.OsExit,
           Lifecycle.Reap;
      match step
      case DoStart(f) => var _ := Start(f);
      case DoStop(read, f) => var _ := Stop(read, f);
      case DoRestart(f) => var _ := Restart(f);
      case DoRestartIfWarm(read, f) => var _, _ := RestartIfWarm(read, f);
      case DoRename(name, ok) => RenameInstance(name, ok);
      case DoUpdate(edit, reload, valid, ok, f) => var _ := UpdateContent(edit, reload, valid, ok, f);
      case DoDelete(f) => var _ := DeleteInstance(f);
      case DoSetMode(mode, f) => var _ := SetRuntimeMode(mode, f);
      case DoApplyMode(f) => var _ := ApplyServiceRuntimeMode(f);
      case DoCreate(req, f) => var _ := CreateInstance(req, f);
    }

    /** What a request does to the instance. */
    method Serve(step: Machine.Step)
      requires Valid() && (step.DoEnsure? || step.DoRelease? || step.DoTouch?)
      modifies this
      ensures Valid() && Abs() == Machine.Next(old(Abs()), step)
    {
      hide Ops.Start, Ops.Stop, Ops.Restart, Ops.RestartIfWarm, Ops.Rename, Ops.UpdateContent, Ops.Delete,
           Ops.SetRuntimeMode, Ops.ApplyServiceRuntimeMode, Ops.CreateInstance, Ops.EnsureStarted, Ops.Release,
           Ops.Touch, Ops.Park, Ops.Wake, Ops.TimerFire, Ops.ReconcileSurplus, Ops.ReconcileStale,
           Ops.ReconcileMissing, Ops.ShutdownStop, Lifecycle.CancelLifecycle, Ops.KillOrphan, Lifecycle.OsExit,
           Lifecycle.Reap;
      match step
      case DoEnsure(f) => var _, _ := EnsureStarted(f);
      case DoRelease(t) =>
        KeepsTracked(Abs(), t);
        ReleaseRef(t);
      case DoTouch(now) => TouchInstance(now);
    }

    /** A reconcile stage at this instance. */
    method Reconcile(step: Machine.Step)
      requires Valid() && (step.DoSurplus? || step.DoStale? || step.DoMissing?)
      modifies this
      ensures Valid() && Abs() == Machine.Next(old(Abs()), step)
    {
      hide Ops.Start, Ops.Stop, Ops.Restart, Ops.RestartIfWarm, Ops.Rename, Ops.UpdateContent, Ops.Delete,
           Ops.SetRuntimeMode, Ops.ApplyServiceRuntimeMode, Ops.CreateInstance, Ops.EnsureStarted, Ops.Release,
           Ops.Touch, Ops.Park, Ops.Wake, Ops.TimerFire, Ops.ReconcileSurplus, Ops.ReconcileStale,
           Ops.ReconcileMissing, Ops.ShutdownStop, Lifecycle.CancelLifecycle, Ops.KillOrphan, Lifecycle.OsExit,
           Lifecycle.Reap;
      match step
      case DoSurplus(f) => var _ := ReconcileSurplus(f);
      case DoStale(f) => var _ := ReconcileStale(f);
      case DoMissing(f) => var _ := ReconcileMissing(f);
    }

    /** The scale-to-zero scan at this instance, or Shutdown. */
    method Tend(step: Machine.Step)
      requires Valid() && (step.DoPark? || step.DoCancel? || step.DoShutdownStop?)
      modifies this
      ensures Valid() && Abs() == Machine.Next(old(Abs()), step)
    {
      hide Ops.Start, Ops.Stop, Ops.Restart, Ops.RestartIfWarm, Ops.Rename, Ops.UpdateContent, Ops.Delete,
           Ops.SetRuntimeMode, Ops.ApplyServiceRuntimeMode, Ops.CreateInstance, Ops.EnsureStarted, Ops.Release,
           Ops.Touch, Ops.Park, Ops.Wake, Ops.TimerFire, Ops.ReconcileSurplus, Ops.ReconcileStale,
           Ops.ReconcileMissing, Ops.ShutdownStop, Lifecycle.CancelLifecycle, Ops.KillOrphan, Lifecycle.OsExit,
           Lifecycle.Reap;
      match step
      case DoPark(scannedAt, f) => var _ := ParkIfStillIdle(scannedAt, f);
      case DoCancel => CancelNow();
      case DoShutdownStop(read, f) => var _ := ShutdownStop(read, f);
    }

    /** A goroutine's turn. */
    method Resume(step: Machine.Step)
      requires Valid() && (step.DoWake? || step.DoTimer?)
      modifies this
      ensures Valid() && Abs() == Machine.Next(old(Abs()), step)
    {
      IdleGoroutines(Abs(), step);
      hide Ops.Start, Ops.Stop, Ops.Restart, Ops.RestartIfWarm, Ops.Rename, Ops.UpdateContent, Ops.Delete,
           Ops.SetRuntimeMode, Ops.ApplyServiceRuntimeMode, Ops.CreateInstance, Ops.EnsureStarted, Ops.Release,
           Ops.Touch, Ops.Park, Ops.Wake, Ops.TimerFire, Ops.ReconcileSurplus, Ops.ReconcileStale,
           Ops.ReconcileMissing, Ops.ShutdownStop, Lifecycle.CancelLifecycle, Ops.KillOrphan, Lifecycle.OsExit,
           Lifecycle.Reap;
      match step
      case DoWake(h, f) =>
        if h < |heap| && heap[h].watcher == AtGate {
          WaitAtGate(h, f);
        }
      case DoTimer(i, f) =>
        if i < |timers| && timers[i].pending {
          RestartAfterBackoff(i, f);
        }
    }

    /** What a process does by itself. */
    method Exit(step: Machine.Step)
      requires Valid() && (step.DoOsExit? || step.DoReap?)
      modifies this
      ensures Valid() && Abs() == Machine.Next(old(Abs()), step)
    {
      hide Ops.Start, Ops.Stop, Ops.Restart, Ops.RestartIfWarm, Ops.Rename, Ops.UpdateContent, Ops.Delete,
           Ops.SetRuntimeMode, Ops.ApplyServiceRuntimeMode, Ops.CreateInstance, Ops.EnsureStarted, Ops.Release,
           Ops.Touch, Ops.Park, Ops.Wake, Ops.TimerFire, Ops.ReconcileSurplus, Ops.ReconcileStale,
           Ops.ReconcileMissing, Ops.ShutdownStop, Lifecycle.CancelLifecycle;
      match step
      case DoOsExit(h) =>
        if h < |heap| {
          heap := heap[h := heap[h].(alive := false)];
        }
      case DoReap(h) =>
        if h < |heap| {
          ObserveExit(h);
        }
    }

    /** A signal to an orphan, and an import's write of a service row. */
    method Outside(step: Machine.Step)
      requires Valid() && (step.DoKillOrphan? || step.DoImport?)
      modifies this
      ensures Valid() && Abs() == Machine.Next(old(Abs()), step)
    {
      hide Ops.Start, Ops.Stop, Ops.Restart, Ops.RestartIfWarm, Ops.Rename, Ops.UpdateContent, Ops.Delete,
           Ops.SetRuntimeMode, Ops.ApplyServiceRuntimeMode, Ops.CreateInstance, Ops.EnsureStarted, Ops.Release,
           Ops.Touch, Ops.Park, Ops.Wake, Ops.TimerFire, Ops.ReconcileSurplus, Ops.ReconcileStale,
           Ops.ReconcileMissing, Ops.ShutdownStop, Lifecycle.CancelLifecycle;
      match step
      case DoKillOrphan(h) =>
        if tracked != Some(h) && h < |heap| {
          heap := heap[h := heap[h].(killed := true)];
        }
      case DoImport(service, svc) => services := services[service := svc];
    }

    method Perform(step: Machine.Step)
      requires Valid()
      modifies this
      ensures Valid() && Abs() == Machine.Next(old(Abs()), step)
    {
      hide Machine.Next;
      if step.DoOsExit? || step.DoReap? {
        Exit(step);
      } else if step.DoKillOrphan? || step.DoImport? {
        Outside(step);
      } else if step.DoWake? || step.DoTimer? {
        Resume(step);
      } else if step.DoEnsure? || step.DoRelease? || step.DoTouch? {
        Serve(step);
      } else if step.DoSurplus? || step.DoStale? || step.DoMissing? {
        Reconcile(step);
      } else if step.DoPark? || step.DoCancel? || step.DoShutdownStop? {
        Tend(step);
      } else {
        Control(step);
      }
    }

    /** The object goes through any run of the machine, so what is proved of runs is proved of it. */
    method PerformAll(steps: seq<Machine.Step>)
      requires Valid()
      modifies this
      ensures Valid() && Abs() == Machine.Run(old(Abs()), steps)
    {
      hide Machine.Next;
      for i := 0 to |steps|
        invariant Valid() && Machine.Run(Abs(), steps[i..]) == Machine.Run(old(Abs()), steps)
      {
        assert steps[i..][0] == steps[i] && steps[i..][1..] == steps[i + 1..];
        Perform(steps[i]);
      }
    }
  }

  /** A start that succeeds leaves its process tracked. */
  lemma StartedIsTracked(s: Sys, f: StartFate)
    requires s.tracked.Some? ==> s.tracked.value < |s.heap|
    ensures var (t, err) := StartLocked(s, f);
      t.tickets == s.tickets && (err == Ok ==> t.tracked.Some? && t.tracked.value < |t.heap|)
  {
  }

  lemma StoppedKeepsPlace(s: Sys, enabled: bool, f: StopFate)
    requires s.row.Some?
    ensures StopProcess(s, s.row.value, enabled, f).0.row.Some?
  {
  }

  lemma KeepsTracked(s: Sys, t: nat)
    ensures var u := Ops.Release(s, t); u.tracked == s.tracked && |u.heap| == |s.heap|
  {
  }

  lemma IdleGoroutines(s: Sys, step: Machine.Step)
    ensures step.DoTimer? && (step.i >= |s.timers| || !s.timers[step.i].pending) ==> Machine.Next(s, step) == s
    ensures step.DoWake? && (step.h >= |s.heap| || s.heap[step.h].watcher != AtGate) ==> Machine.Next(s, step) == s
  {
  }

  lemma ReapKeepsPlace(s: Sys, h: nat)
    ensures var t := Reap(s, h); t == s.(heap := t.heap) && |t.heap| == |s.heap|
  {
  }

  lemma FinishKeepsRest(s: Sys, h: nat)
    requires h < |s.heap|
    ensures var t := Ops.Finish(s, h);
      && t.row == s.row && t.services == s.services && t.cancelled == s.cancelled && t.timers == s.timers && t.wg == s.wg - 1
  {
  }
}
