/**
 * The state the supervisor keeps for one instance id, and the transitions every
 * lifecycle operation is made of.
 *
 * Each of the supervisor's maps is keyed by instance id and a gated operation touches
 * only its own key, so one id is one `Sys`. Outcomes of the outside world (store,
 * process, health check, clock) are parameters, called fates.
 */
module Lifecycle {
  import opened Domain

  /** Where the exit-watcher goroutine of a process is. AtGate is the window between
      closing done and winning the instance gate. */
  datatype Watcher = NoWatcher | Waiting | AtGate | Finished

  /**
   * A started process and its processState. Handles are indices into Sys.heap, so a
   * handle plays the part of the *processState pointer and pids may be recycled freely.
   * `closes` counts close(done); `published` is false for a process killed before a
   * processState was built for it.
   */
  datatype Proc = Proc(
    pid: int,
    attempt: nat,
    generation: nat,
    scaleToZero: bool,
    refs: int,
    alive: bool,
    killed: bool,
    reaped: bool,
    closes: nat,
    watcher: Watcher,
    published: bool)

  /** A goroutine in restartAfterBackoff. */
  datatype Timer = Timer(attempt: nat, generation: nat, pending: bool)

  /** The release closure EnsureStarted hands to one request. */
  datatype Ticket = Ticket(handle: nat, releases: nat)

  datatype Sys = Sys(
    id: string,
    row: Option<Row>,
    services: map<string, Service>,
    tracked: Option<nat>,
    heap: seq<Proc>,
    generation: nat,
    lastActivity: Option<int>,
    startFailure: Option<int>,
    timers: seq<Timer>,
    tickets: seq<Ticket>,
    wg: int,
    cancelled: bool)

  datatype Outcome =
    | Ok
    | Refused          // a lookup or a validation failed
    | Unsupported      // ErrUnsupportedRuntimeControl
    | LifecycleOver    // the supervisor's lifecycle context is cancelled
    | CallerGone       // the request's own context is done
    | StoreError       // a row or config write failed
    | StartError       // the process did not come up
    | StopError        // the process was not seen to exit

  // ----- reading ---------------------------------------------------------------

  predicate Known(s: Sys) {
    s.row.Some? && s.row.value.service in s.services
  }

  function Mode(s: Sys): RuntimeMode
    requires Known(s)
  {
    EffectiveRuntimeMode(s.services[s.row.value.service], s.row.value.mode)
  }

  /** liveProcessLocked: an entry whose done channel is still open. */
  predicate Live(s: Sys) {
    s.tracked.Some? && s.tracked.value < |s.heap| && s.heap[s.tracked.value].closes == 0
  }

  function ColdRow(row: Row): Row {
    row.(status := Stopped, pid := None, addr := "")
  }

  function StoppedRow(row: Row, enabled: bool): Row {
    ColdRow(row).(enabled := enabled)
  }

  function LandedRow(row: Row, override: Option<RuntimeMode>): Row {
    row.(mode := override, enabled := true, status := Running, pid := None, addr := "")
  }

  // ----- single effects --------------------------------------------------------

  function Write(s: Sys, row: Row, ok: bool): Sys {
    if ok then s.(row := Some(row)) else s
  }

  function Bump(s: Sys): Sys {
    s.(generation := s.generation + 1)
  }

  /** Shutdown's first critical section: cancel and invalidate the backoff timers. A
      zero generation is an id missing from the generations map. */
  function CancelLifecycle(s: Sys): Sys {
    s.(cancelled := true, generation := if s.generation > 0 then s.generation + 1 else 0)
  }

  function CancelIf(s: Sys, b: bool): Sys {
    if b then CancelLifecycle(s) else s
  }

  function Kill(s: Sys, h: nat): Sys {
    if h < |s.heap| then s.(heap := s.heap[h := s.heap[h].(killed := true)]) else s
  }

  /** The OS process ends; nobody has waited for it yet. */
  function OsExit(s: Sys, h: nat): Sys {
    if h < |s.heap| then s.(heap := s.heap[h := s.heap[h].(alive := false)]) else s
  }

  function ReapedProc(p: Proc): Proc {
    p.(alive := false, reaped := true, closes := p.closes + 1, watcher := AtGate)
  }

  /** The watcher's Wait returns and it closes done; it now queues for the gate. */
  function Reap(s: Sys, h: nat): Sys {
    if h < |s.heap| && s.heap[h].watcher == Waiting
    then s.(heap := s.heap[h := ReapedProc(s.heap[h])])
    else s
  }

  /** The tracked process dies between two checks of one gated operation. */
  function ExitTracked(s: Sys, b: bool): Sys {
    if b && s.tracked.Some? then Reap(s, s.tracked.value) else s
  }

  function FlagScaleToZero(s: Sys, flag: bool): Sys {
    if s.tracked.Some? && s.tracked.value < |s.heap|
    then s.(heap := s.heap[s.tracked.value := s.heap[s.tracked.value].(scaleToZero := flag)])
    else s
  }

  function Land(s: Sys, override: Option<RuntimeMode>, ok: bool): (Sys, Outcome) {
    if s.row.None? || !ok then (s, StoreError)
    else (Write(s, LandedRow(s.row.value, override), true), Ok)
  }

  // ----- stopping --------------------------------------------------------------

  datatype Wait = Seen | TimedOut | CtxDone

  /** first: the wait after Interrupt; second: whether the wait after Kill sees the exit. */
  datatype StopFate = StopFate(first: Wait, second: bool, write: bool)

  function SignalAndWait(s: Sys, h: nat, f: StopFate): (Sys, Outcome) {
    if f.first == Seen then (Reap(s, h), Ok)
    else if f.second then (Reap(Kill(s, h), h), if f.first == CtxDone then StopError else Ok)
    else (Kill(s, h), StopError)
  }

  function Untrack(s: Sys): Sys {
    s.(generation := s.generation + 1, tracked := None, lastActivity := None)
  }

  function StopProcess(s: Sys, row: Row, enabled: bool, f: StopFate): (Sys, Outcome) {
    var (s1, err) :=
      if s.tracked.Some? then SignalAndWait(Untrack(s), s.tracked.value, f) else (Untrack(s), Ok);
    if !f.write then (s1, StoreError) else (Write(s1, StoppedRow(row, enabled), true), err)
  }

  // ----- starting --------------------------------------------------------------

  /**
   * read: both lookups; prep: config file, port, entry, secret pipe, hardening, logs;
   * claim, announce, settle: the three row writes in order; cancelEarly and cancelLate:
   * Shutdown cancels before the process is tracked, or by the end of the health wait.
   */
  datatype StartFate = StartFate(
    read: bool,
    prep: bool,
    claim: bool,
    spawn: bool,
    announce: bool,
    settle: bool,
    pid: int,
    port: string,
    cancelEarly: bool,
    now: int,
    health: bool,
    cancelLate: bool)

  /** cleanupFailedStart on a state no watcher owns: kill, wait, close done. */
  function Discarded(p: Proc): Proc {
    p.(alive := false, killed := true, reaped := true, closes := p.closes + 1, watcher := NoWatcher)
  }

  function NewProc(pid: int, attempt: nat, generation: nat, scaleToZero: bool): Proc {
    Proc(pid, attempt, generation, scaleToZero, 0, true, false, false, 0, NoWatcher, true)
  }

  function Spawn(s: Sys, p: Proc): Sys {
    s.(heap := s.heap + [p])
  }

  function StartWithAttempt(s: Sys, attempt: nat, generation: nat, f: StartFate): (Sys, Outcome) {
    if s.cancelled then (s, LifecycleOver)
    else if !f.read || !Known(s) then (s, Refused)
    else if Mode(s) == OnDemand then (s, Unsupported)
    else if !f.prep then (s, StartError)
    else if !f.claim then (s, StoreError)
    else
      var claimed := s.row.value.(enabled := true, status := Starting, addr := "127.0.0.1:" + f.port);
      if !f.spawn then
        (Write(Write(s, claimed, true), claimed.(status := Failed), f.settle), StartError)
      else
        var p := NewProc(f.pid, attempt, generation, Mode(s) == ScaleToZero);
        if !f.announce then
          (Spawn(Write(s, claimed, true), Discarded(p).(closes := 0, published := false)), StoreError)
        else
          var running := claimed.(pid := Some(f.pid), status := Running);
          Register(CancelIf(Write(s, running, true), f.cancelEarly), running, p, f)
  }

  /** From taking s.mu after the process runs: track it, or put it down again. */
  function Register(s: Sys, row: Row, p: Proc, f: StartFate): (Sys, Outcome) {
    if s.cancelled then
      (Write(Spawn(s, Discarded(p)), StoppedRow(row, true), f.settle), LifecycleOver)
    else if Live(s) then
      var s1 := Kill(s, s.tracked.value).(tracked := None);
      (Write(Spawn(s1, Discarded(p)), StoppedRow(row, true), f.settle), StartError)
    else
      Probe(CancelIf(Spawn(s, p).(tracked := Some(|s.heap|), lastActivity := Some(f.now)), f.cancelLate),
            row, |s.heap|, f)
  }

  /** The health wait and what follows it. */
  function Probe(s: Sys, row: Row, h: nat, f: StartFate): (Sys, Outcome)
    requires h < |s.heap|
  {
    if !f.health && !s.cancelled then
      (DropStart(Write(s, ColdRow(row).(status := Failed), f.settle), h), StartError)
    else if s.cancelled then
      (DropStart(Write(s, StoppedRow(row, true), f.settle), h), LifecycleOver)
    else
      (s.(heap := s.heap[h := s.heap[h].(watcher := Waiting)], wg := s.wg + 1), Ok)
  }

  /** cleanupFailedStart for a tracked start. */
  function DropStart(s: Sys, h: nat): Sys
    requires h < |s.heap|
  {
    s.(heap := s.heap[h := Discarded(s.heap[h])], tracked := if s.tracked == Some(h) then None else s.tracked)
  }

  function StartLocked(s: Sys, f: StartFate): (Sys, Outcome) {
    StartWithAttempt(Bump(s), 0, s.generation + 1, f)
  }
}
