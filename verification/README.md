# Verified core of OctoBus

OctoBus runs one resident process per instance, imports service packages into a data
directory that survives crashes, and serves calls through a gateway and an SDK. This project
models those parts in Dafny and proves what they keep.

**The instance supervisor** (`Domain`, `Lifecycle`, `Operations`, `Machine`, `Supervisor`).
An instance's gate makes each lifecycle operation atomic; everything else is a step of its
own: a process exiting, its watcher closing `done` and later winning the gate, a backoff timer
going off, a request taking and giving back its ref, the scale-to-zero scan, each stage of
reconcile, an import rewriting service rows, Shutdown cancelling the lifecycle. `Lifecycle`
and `Operations` define what each operation does to the state of one instance id, with every
outcome of the store, the process, the health check and the clock as a parameter (a "fate").
`Supervisor.InstanceSlot` is the same in the source's form - a class whose methods change
its fields in the source's order - and each method is proved to do what its function says.
`Machine` puts the operations together as steps. `Ownership` proves the invariant of all of
them; `Guarantees`, `Generations`, `Agreement`, `Intent`, `Landing` and `Switches` draw the
properties of whole runs from it, and `Effects` says what each operation achieves when its calls
work and leaves when one fails. `Requests` puts gateway calls and the daemon's steps
together. `Fleet` is the scale-to-zero scan over all instances, `Reconcile` the backstop pass.

**Imports and crashes** (`Files`, `Commit`, `Trees`, `ImportState`, `Importer`). A small file
system with atomic rename and a removal that a crash may leave half done, at any depth. `Commit`
is the swap-through-a-backup protocol and its recovery as one service sees it; `Trees` the
store of shared runtime trees and its collection; `Importer.Importer` the methods that carry
them out over one data directory, with a budget of file operations after which the daemon dies.

**Smaller cores.** `Descriptors` (import closures of the reflection service), `AliasView` (the
SDK's view of a message by its .proto names), `RuntimeTree` (predicting whether building a
runtime tree runs an install), `Health` (the SDK's varint and string-field codec; section
"Base 128 Varints" of the Protocol Buffers Encoding document), `Gateway` (who gives a
request's ref back).

## Where the code differs from its promise

Each of these is proved, with the condition under which the promise holds.

- An on-demand instance can be marked degraded by its last process's watcher. CreateInstance
  looks at live entries and at the row's pid; an entry that has exited, waits for its watcher,
  and whose pid an earlier restart or mode switch already cleared is neither
  (`Landing.NextSettles`, `Landing.WindowDegradesOnDemandRow`).
- After an import makes a service on-demand, an instance is left unservable in two ways: an exited
  entry's watcher degrades its landed row, or a stop that was not seen to end returns before the
  row is landed, and no reconcile pass mends it (`Switches.ApplyServesExactly`,
  `Switches.ExitedEntryDegradesRow`, `Switches.LateStopLeavesRowStopped`).
- When CreateInstance's start fails it puts the old override back and keeps the new service. That
  is the on-demand shape it promises exactly when the override makes the new service on-demand;
  otherwise the row claims a process nothing runs (`Switches.RollbackServesExactly`,
  `Switches.RebindLeavesNoProcess`).
- Recovery's comment says that a dir whose two hashes match is the committed one. It can be the
  remains of a re-import with equal hashes whose row write failed and whose rollback was cut
  (`Commit.WholeUnlessIndistinct`).
- existingSharedTree's comment says a directory in the store is complete or absent. A crash inside
  the sweep's own removal leaves a partial one, and it is reused (`Trees.SweepKeepsWhole`,
  `Trees.StumpIsReused`).
- The install prediction looks through symlinked parent directories that copyDir drops
  (`RuntimeTree.PredictionExact`, `RuntimeTree.LinkedScopeMisleads`).
- The string-field scan need not end: a length that reads as negative moves it backwards. It ends
  at all exactly when it ends within as many rounds as the buffer has bytes, and always when no
  length reads as negative (`Health.EndlessExactly`, `Health.ScanMayNotEnd`, `Health.ScanEnds`).
- A release closure is not idempotent: called twice it takes a ref that is another request's. Refs
  count the requests that hold one exactly when no closure is called twice, which the gateway's
  guard ensures (`Guarantees.RefsCountHolders`, `Requests.RefsCountCalls`).
- The row and process agree even when row writes fail (`Agreement.RowAgreesWithProcess`), which
  is more than the code claims.

## Model

| member | source | states |
|---|---|---|
| Ownership.NextKeeps | internal/supervisor/supervisor.go:604-841 | Every step of every interleaving - 25 kinds, from operator calls to exits, timers, requests, scans, reconcile and cancellation - keeps the ownership invariant and moves forward only: kills, reaps, releases and generations never go back |
| Ownership.RunKeeps | internal/supervisor/supervisor.go:604-841 | The same over any run |
| Guarantees.ProcessesOwned | internal/supervisor/supervisor.go:711-841 | With the gate free, a process not yet reaped is the tracked one or has been killed, so two un-killed ones never exist, through stop timeouts, cancelled stops, failed starts and the replaced-process branch |
| Guarantees.DoneClosedOnce | internal/supervisor/supervisor.go:1579-1609 | A process state's done channel is closed exactly once, exactly when the process was reaped; one without a watcher was closed by the failed start that made it |
| Guarantees.OneChainPerGeneration | internal/supervisor/supervisor.go:1662-1738 | No two of the unreaped processes and pending backoff timers of an instance share a generation |
| Generations.SupersedesBumps | internal/supervisor/supervisor.go:1726-1738 | A step takes a new generation if and only if, by what is known before it, it starts, stops or restarts the instance or switches it to on-demand - every operator call, request start, park, import step, reconcile stage and shutdown stop; Shutdown ends the lifecycle |
| Generations.SupersededTimerStandsDown | internal/supervisor/supervisor.go:1676-1724 | A backoff timer armed before any such step does nothing when it fires, whatever runs in between, also after a delete and re-create of the id |
| Guarantees.RefsConserved | internal/supervisor/scaletozero.go:64-135 | In every reachable state a process's refs are the refs issued on it less all release calls made on it, however often a closure is called |
| Guarantees.RefsCountHolders | internal/supervisor/scaletozero.go:64-135 | They never exceed the requests whose closure was not called, and equal them if and only if no closure on the process was called twice |
| Requests.DaemonKeepsTickets | internal/supervisor/scaletozero.go:64-135 | No step but a request's own takes or gives back a ref |
| Requests.RefsCountCalls | internal/protocol/gateway.go:1611-1741 | Through any traffic of gateway calls, whose goroutines drop their ref through the once guard as often as they like, a process's refs count exactly the calls that hold it: never negative, and zero exactly when all have dropped it |
| Requests.NoParkUnderACall | internal/supervisor/scaletozero.go:281-334 | While a call holds the tracked process, a park does nothing |
| Guarantees.ReleaseIsLocal | internal/supervisor/scaletozero.go:125-135 | Every release call, first or straggling, lowers the refs of the state it was taken on by one, whatever is tracked now, and moves nothing else |
| Guarantees.EnsureIssuesOneRef | internal/supervisor/scaletozero.go:55-123 | A request holds a new ref exactly when EnsureStarted succeeds, on the live tracked process, which has one more than before |
| Guarantees.ParkSparesHeldProcesses | internal/supervisor/scaletozero.go:281-334 | A park that changes anything found the mode scale-to-zero and, unless a closure on the process was called twice, every ref on it released |
| Guarantees.OvertakenStartLeavesNothing | internal/supervisor/supervisor.go:734-740 | A start that Shutdown overtakes fails, leaves no process of its own unreaped and none tracked |
| Guarantees.NothingStartsAfterCancel | internal/supervisor/supervisor.go:1740-1792 | Once the lifecycle is cancelled no step of any run starts a process or arms a timer |
| Guarantees.ShutdownIsQuiet | internal/supervisor/supervisor.go:856-939 | Once Shutdown's wait ends, every process ever started is reaped, nothing is tracked, no timer is pending, and it stays so |
| Agreement.NextAgrees | internal/supervisor/supervisor.go:702-781 | With service modes fixed, every step keeps row and process in agreement |
| Agreement.RowAgreesWithProcess | internal/supervisor/supervisor.go:702-781 | In every run with service modes fixed, a live tracked process has an enabled, running, non-on-demand row with exactly its pid and an address - also when row writes fail |
| Agreement.BackgroundSparesSuccessor | internal/supervisor/supervisor.go:1593-1657 | With a successor live, an exit watcher, backoff timer, reconcile step or rename leaves it tracked and its row untouched but for the name |
| Intent.StopLands | internal/supervisor/supervisor.go:843-854 | A Stop whose row write lands leaves nothing tracked and the row disabled, seen exit or not |
| Intent.StopWins | internal/supervisor/supervisor.go:843-854 | After it no run of watchers, timers, requests, scans, reconcile passes, imports and import-driven restarts starts a process or sets Enabled |
| Intent.SyncKeepsEnabled | internal/supervisor/supervisor.go:168-444 | CreateInstance between resident modes never changes Enabled, whatever succeeds or fails |
| Intent.CreateConverges | internal/supervisor/supervisor.go:168-444 | A successful CreateInstance leaves a row that says what was asked; an on-demand one rests, and is enabled unless it was passed over as an unchanged disabled row that already read as resting |
| Intent.CreateIsIdempotent | internal/supervisor/supervisor.go:168-444 | After a successful call that left the row not failed, repeating it changes no row, process, timer or generation |
| Landing.NextSettles | internal/supervisor/supervisor.go:1003-1231 | A step with its writes landing keeps an on-demand instance processless, enabled and running if and only if it is not a CreateInstance into on-demand over an exited entry whose pid was already cleared |
| Landing.OnDemandLands | internal/supervisor/supervisor.go:1094-1160 | Over runs without that step: on-demand means no tracked entry, a row enabled and running without pid or address, and no timer that could act - after timed-out stops and rolled-back mode switches too |
| Landing.LandsUnlessEntryMissed | internal/supervisor/supervisor.go:267-297 | The exception as an if-and-only-if at the end of any run |
| Landing.WindowDegradesOnDemandRow | internal/supervisor/supervisor.go:267-297 | A six-step run from an empty store that ends with an enabled on-demand row marked degraded |
| Switches.ApplyServesExactly | internal/supervisor/supervisor.go:1238-1308 | After an import makes a service on-demand, its background step leaves an enabled instance servable - row resting, nothing tracked - if and only if nothing was tracked or a live process was seen to stop |
| Switches.ApplyLeavesExited | internal/supervisor/supervisor.go:1260-1308 | Otherwise an exited entry stays under the landed row, and its watcher marks that row degraded |
| Switches.ApplyLeavesStopped | internal/supervisor/supervisor.go:1260-1272 | Or the stop was not seen to end: the on-demand row stays enabled and stopped, and no reconcile pass changes it |
| Switches.ExitedEntryDegradesRow | internal/supervisor/supervisor.go:1579-1660 | A run from an empty store that meets the first |
| Switches.LateStopLeavesRowStopped | internal/supervisor/supervisor.go:1260-1272 | A run that meets the second |
| Switches.RollbackServesExactly | internal/supervisor/supervisor.go:390-405 | When the start of a switch from on-demand to long-running fails, the row rests, and nothing is tracked that was not; the instance is servable on demand if and only if the old override makes the newly bound service on-demand |
| Switches.RebindLeavesNoProcess | internal/supervisor/supervisor.go:390-405 | A run that ends long-running with a row that claims to run and no process |
| Effects.StartExactly | internal/supervisor/supervisor.go:604-825 | A start succeeds if and only if nothing forbids it and each of its calls works, and then one new process runs - watched, of the asked attempt and generation, flagged by its mode - and the row has its pid, an address and nothing else changed |
| Effects.FailedStartShows | internal/supervisor/supervisor.go:785-825 | A start that fails by itself leaves its row enabled and failed; after a failed health wait without pid or address |
| Effects.StopExactly | internal/supervisor/supervisor.go:1415-1450 | A stop succeeds if and only if it saw the exit and wrote the row; written, the row is cold with the asked Enabled, and the process is reaped or at least killed |
| Effects.RestartWorks | internal/supervisor/supervisor.go:941-968 | A restart of an enabled resident row whose calls work answers Ok: the old process is reaped, a new one runs under the row; a disabled row ends stopped and disabled |
| Effects.RestartIfWarmWorks | internal/supervisor/supervisor.go:974-995 | So does RestartIfWarm on a live instance |
| Effects.UpdateRestarts | internal/supervisor/supervisor.go:490-559 | So does an update with restart, and the new process runs under the new content |
| Effects.UpdateWrites | internal/supervisor/supervisor.go:490-559 | An update writes what it was given, and no other content |
| Effects.ColdRestartRepairs | internal/supervisor/lifecycle.go:66-84 | A restart of a cold scale-to-zero instance repairs its row and starts nothing |
| Effects.TimerRestarts | internal/supervisor/supervisor.go:1676-1724 | A backoff timer that is due starts the process, of its own attempt and generation, and is spent |
| Effects.TimerRearms | internal/supervisor/supervisor.go:1711-1724 | If that start fails, the row is degraded without pid and exactly one timer of the generation is pending, for the next attempt |
| Effects.CrashDegrades | internal/supervisor/supervisor.go:1593-1660 | The watcher of a crashed tracked process degrades the row and, unless it scales to zero, arms the next attempt |
| Effects.WatcherStandsDown | internal/supervisor/supervisor.go:1593-1640 | A watcher overtaken by a successor, a stop, another pid or Shutdown leaves the row alone and arms nothing |
| Effects.CrashRestarts | internal/supervisor/supervisor.go:1579-1724 | A live long-running process dies, its watcher gets the gate, the timer fires with working calls: the instance is up again if and only if the process was of the current generation |
| Effects.StartedInstanceRecovers | internal/supervisor/supervisor.go:1579-1724 | So an instance that was started and crashes comes up by itself |
| Effects.SetModeSwitches | internal/supervisor/supervisor.go:1003-1231 | A mode switch that answers Ok has switched the mode, and nothing else the row is made of |
| Effects.SetModeProcess | internal/supervisor/supervisor.go:1003-1231 | All nine transitions, on Ok: when the instance is live, whether its process is kept, its clock and the shape of its row |
| Effects.SetModeErrors | internal/supervisor/supervisor.go:1003-1231 | On an error, which override the row holds, by the stage that failed |
| Effects.SetModeWorks | internal/supervisor/supervisor.go:1003-1231 | With working calls it answers Ok, unless an on-demand instance has a live process in the way of its start |
| Effects.FailedSwitchUntracks | internal/supervisor/supervisor.go:1201-1224 | A switch out of on-demand whose start fails leaves nothing tracked behind the row it rolls back |
| Effects.EffectiveModeReads | internal/domain/domain.go:276-284 | The override, else the service's mode, else long-running |
| Effects.DeleteRemoves | internal/supervisor/supervisor.go:1310-1363 | Exactly when a delete succeeds; then the row, the clock and the remembered failure are gone, and otherwise the row is there |
| Effects.QuietStopsKeepEnabled | internal/supervisor/supervisor.go:895-920 | Shutdown's stop leaves Enabled as it was, a park leaves it set; both leave the row cold |
| Effects.ParkExactly | internal/supervisor/scaletozero.go:281-334 | Exactly when a park succeeds, and that its process is then reaped |
| Effects.EnsureExactly | internal/supervisor/scaletozero.go:55-123 | Exactly when a request gets the instance; a cold one then runs |
| Effects.FailureIsShared | internal/supervisor/scaletozero.go:83-112 | A failed start is remembered: who asks within the window is told at once and starts nothing |
| Effects.SyncReloads | internal/supervisor/supervisor.go:346-441 | Changed content reaches a live resident instance: it is restarted under the new row |
| Effects.SyncBringsUp | internal/supervisor/supervisor.go:354-441 | A sync starts what comes from on-demand, a cold scale-to-zero, or failed under the old content |
| Effects.SyncKeepsWarm | internal/supervisor/supervisor.go:407-423 | A sync from long-running to scale-to-zero keeps the process and gives it a fresh clock |
| Effects.SyncEntersCold | internal/supervisor/supervisor.go:355-389 | A sync from on-demand to scale-to-zero leaves a cold row |
| Effects.RepeatMends | internal/supervisor/supervisor.go:190-230 | A repeated request starts a failed long-running row and makes a failed scale-to-zero one cold |
| Effects.CreateMakes | internal/supervisor/supervisor.go:449-487 | A new instance has what was asked, is started if asked and long-running, and else has the right Enabled and status |
| Effects.ApplyReloads | internal/supervisor/supervisor.go:1280-1308 | After an import makes a service scale-to-zero, a live instance is restarted and a cold one has a cold row |
| Supervisor.InstanceSlot.StartWithAttempt | internal/supervisor/supervisor.go:604-825 | The start, write by write: the new state is the one the lifecycle functions define, for every outcome of each of its steps |
| Supervisor.InstanceSlot.TrackStarted | internal/supervisor/supervisor.go:732-784 | Registering a started process: refused under a cancelled lifecycle, put down in place of a process that is still tracked, else tracked and probed |
| Supervisor.InstanceSlot.AwaitHealth | internal/supervisor/supervisor.go:785-825 | The health wait's three ends: failed, overtaken by Shutdown, or watched from now on |
| Supervisor.InstanceSlot.CleanupFailedStart | internal/supervisor/supervisor.go:827-841 | Kill, reap and close, and untrack only its own entry |
| Supervisor.InstanceSlot.StopProcess | internal/supervisor/supervisor.go:1415-1450 | A stop takes a generation and untracks before it signals; the row is written seen exit or not |
| Supervisor.InstanceSlot.Start | internal/supervisor/supervisor.go:589-602 | No-op on a live process, else a start in a new generation |
| Supervisor.InstanceSlot.Stop | internal/supervisor/supervisor.go:843-854 | Refused for on-demand, else a stop to disabled |
| Supervisor.InstanceSlot.ShutdownStop | internal/supervisor/supervisor.go:895-920 | Shutdown's stop keeps Enabled and skips on-demand rows |
| Supervisor.InstanceSlot.Restart | internal/supervisor/supervisor.go:941-968 | Stop then start, or a stop only when the row is disabled |
| Supervisor.InstanceSlot.RestartIfWarm | internal/supervisor/supervisor.go:974-995 | Restarts a live instance only |
| Supervisor.InstanceSlot.StopThenStart | internal/supervisor/lifecycle.go:83-102 | Stop, then start; a disabled row is only stopped |
| Supervisor.InstanceSlot.RestartLocked | internal/supervisor/lifecycle.go:52-102 | The shared restart: a cold scale-to-zero row is repaired, not started |
| Supervisor.InstanceSlot.RenameInstance | internal/supervisor/supervisor.go:1368-1385 | Changes the name and nothing else |
| Supervisor.InstanceSlot.UpdateContent | internal/supervisor/supervisor.go:490-559 | UpdateConfig and UpdateSecret with their optional restart |
| Supervisor.InstanceSlot.DeleteInstance | internal/supervisor/supervisor.go:1310-1363 | Stops unless processless and on-demand, removes the row, forgets timers and clocks by a new generation |
| Supervisor.InstanceSlot.SetRuntimeMode | internal/supervisor/supervisor.go:1003-1231 | Each of the nine mode transitions, with the rollback of a failed start |
| Supervisor.InstanceSlot.ApplyServiceRuntimeMode | internal/supervisor/supervisor.go:1238-1308 | An import's mode change on an instance; only a live entry is stopped |
| Supervisor.InstanceSlot.CreateInstance | internal/supervisor/supervisor.go:142-488 | Create or converge, every branch, with the rollback that keeps a rebound service |
| Supervisor.InstanceSlot.Converge | internal/supervisor/supervisor.go:315-442 | What follows the merged row, by mode before and after |
| Supervisor.InstanceSlot.LeaveOnDemand | internal/supervisor/supervisor.go:376-406 | From on-demand to resident: the start, and the rollback row of a start that fails |
| Supervisor.InstanceSlot.EnsureStarted | internal/supervisor/scaletozero.go:55-123 | Hot hit, shared failure window, cold start, and the caller that gave up |
| Supervisor.InstanceSlot.ReleaseRef | internal/supervisor/scaletozero.go:128-135 | Each call gives back one ref of the captured state |
| Supervisor.InstanceSlot.TouchInstance | internal/supervisor/scaletozero.go:148-154 | Refreshes the clock of a tracked instance only |
| Supervisor.InstanceSlot.ParkIfStillIdle | internal/supervisor/scaletozero.go:281-334 | Re-checks tracking, refs, clock and mode under the gate, then stops to cold |
| Supervisor.InstanceSlot.WaitAtGate | internal/supervisor/supervisor.go:1593-1660 | What the exit watcher does once it wins the gate: stand down, degrade, or degrade and schedule a restart |
| Supervisor.InstanceSlot.ScheduleRestartAfterBackoff | internal/supervisor/supervisor.go:1662-1674 | Arms a timer unless the lifecycle is over |
| Supervisor.InstanceSlot.RestartAfterBackoff | internal/supervisor/supervisor.go:1676-1724 | A timer going off: stand down on a changed generation or row, else start, and re-arm on failure |
| Supervisor.InstanceSlot.ReconcileSurplus | internal/supervisor/reconcile.go:139-169 | Re-read under the gate, stop what must not run, land an on-demand row |
| Supervisor.InstanceSlot.ReconcileStale | internal/supervisor/reconcile.go:216-249 | Re-read under the gate; a claim with nothing behind it becomes a cold row |
| Supervisor.InstanceSlot.ReconcileMissing | internal/supervisor/reconcile.go:254-297 | Re-read under the gate, clear a dead pid, start |
| Supervisor.InstanceSlot.Perform | internal/supervisor/supervisor.go:142-1772 | One step of the machine, by the method that carries it out |
| Supervisor.InstanceSlot.PerformAll | internal/supervisor/supervisor.go:142-1772 | Any run of the machine, so what is proved of runs holds of the object |
| Fleet.Pool.CollectExpired | internal/supervisor/scaletozero.go:180-193 | Exactly the warm, ref-free instances idle past the TTL, each once |
| Fleet.Pool.StopIdle | internal/supervisor/scaletozero.go:195-204 | Alone: exactly the expired ones whose gate agreed are cold, the others are untouched |
| Fleet.Pool.PickVictim | internal/supervisor/scaletozero.go:235-256 | The warm count, and a victim at least as long idle as every other untried ref-free one, or none left |
| Fleet.Pool.EvictLeastRecentlyUsed | internal/supervisor/scaletozero.go:235-273 | Ends under arbitrary interference; alone it gets to the cap or to only held and refused instances, evicts no more than the excess, in idle order |
| Fleet.Pool.ScanScaleToZero | internal/supervisor/scaletozero.go:158-274 | A whole pass, alone: who is stopped and who evicted, that all others are untouched, that evictions stop at the cap and go in idle order, and what stays warm |
| Fleet.EvictAccepted | internal/supervisor/scaletozero.go:257-272 | One more eviction keeps count and idle order of those before it |
| Fleet.IdleAreParked | internal/supervisor/scaletozero.go:180-204 | Read off the clocks: what no call holds and sat past the TTL is cold after a pass |
| Fleet.UsedAreKept | internal/supervisor/scaletozero.go:180-204 | And nothing held or used within the TTL is stopped for idleness |
| Fleet.IdleOrderReads | internal/supervisor/scaletozero.go:248-254 | The idle order is that of the clocks, an instance never used first |
| Reconcile.FixpointsAreQuiet | internal/supervisor/reconcile.go:105-306 | The states a reconcile pass leaves alone, whatever its calls come to, are exactly those with nothing surplus, stale or missing |
| Reconcile.OnePassSettles | internal/supervisor/reconcile.go:105-306 | One pass alone, calls working, watchers drained: long-running claims are live with their pid, nothing runs under a disabled or on-demand row, stale scale-to-zero rows are cold |
| Reconcile.SecondPassIsIdle | internal/supervisor/reconcile.go:105-306 | A second pass changes nothing |
| Reconcile.PassKeepsStops | internal/supervisor/reconcile.go:123-168 | A pass starts nothing on an instance an operator stopped and leaves it disabled |
| Reconcile.Backstop.KillOrphans | internal/supervisor/reconcile.go:61-103 | Signals the scanned processes that are exact, past their grace, unchanged and not tracked, up to the cap of a pass |
| Reconcile.OrphansSpareTracked | internal/supervisor/reconcile.go:61-103 | It changes nothing of an instance but untracked processes, which it kills |
| Reconcile.OrphansAreKilled | internal/supervisor/reconcile.go:61-103 | An exact, old enough, untracked process whose start still matches and that takes the signal is killed, unless a full pass was scanned before it |
| Reconcile.Backstop.ReconcileProcesses | internal/supervisor/reconcile.go:46-306 | Orphans, snapshot, surplus, sort and repair loops over all instances: after the orphans each ends as one pass over it alone would leave it |
| Reconcile.Backstop.FindStaleAndMissing | internal/supervisor/reconcile.go:180-214 | Sorts the snapshot's claims into stale and missing, exactly |
| Files.BackupNamesParse | internal/packageimport/recovery.go:135-149 | A backup name gives back exactly the valid id it was made from |
| Files.NamespacesAreDisjoint | internal/packageimport/recovery.go:120-132 | Service, backup and staging names never meet, also for an id that starts with "staging-" |
| Files.PrunedLinks | internal/packageimport/gc.go:133-181 | A removal cut anywhere adds no reference |
| Files.ReferencedReads | internal/packageimport/gc.go:133-181 | Referenced are the targets of package and runtime links of a directory under services or of one inside it |
| Commit.CommitIsSafe | internal/packageimport/importer.go:542-559 | Cut at any file operation, a commit or its rollback leaves the live dir or the backup matching the row, and uncut leaves exactly the new or the old version |
| Commit.RecoverIsSafe | internal/packageimport/recovery.go:75-115 | Cut or not, recovery keeps that fact and the row; uncut it leaves the live dir matching and no backup |
| Commit.RecoverResumes | internal/packageimport/recovery.go:54-118 | Recovery cut anywhere and repeated gives what it would have given uncut |
| Commit.RecoveryChooses | internal/packageimport/recovery.go:159-192 | The version in place is kept exactly when the row names it; the backup in every other case |
| Commit.CrashSafety | internal/packageimport/recovery.go:54-118 | After any run of imports and restarts cut anywhere, a recovery that completes leaves a stored service matching its row, and a second one changes nothing |
| Commit.DistinctRunsStayIntact | internal/packageimport/recovery.go:159-192 | Over runs in which no failed row write is for a version the row cannot tell from its own, the recovered dir is a staged version entry for entry |
| Commit.WholeUnlessIndistinct | internal/packageimport/recovery.go:159-192 | A failed import followed by recovery keeps a whole version, for every cut, if and only if the row can tell the two versions apart |
| Commit.IndistinctMayTear | internal/packageimport/importer.go:1839-1848 | Otherwise a crash in the rollback's removal can leave a partial dir that recovery takes for committed |
| Trees.SweepSpares | internal/packageimport/gc.go:76-96 | Cut or not, a referenced or young tree is exactly as it was |
| Trees.SweepRemovesOrphans | internal/packageimport/gc.go:76-96 | A completed sweep removes exactly the unreferenced trees that are old enough |
| Trees.SweepReclaims | internal/packageimport/gc.go:76-96 | After a completed sweep a tree is there if and only if it is referenced or younger than the floor |
| Trees.SweepKeepsWhole | internal/packageimport/shared_tree.go:329-344 | "Complete or absent" survives a sweep, for all crash leftovers, if and only if no crash falls on one of its removals |
| Trees.StumpIsReused | internal/packageimport/shared_tree.go:337-370 | Otherwise later imports under that key are served the remains, and the next sweep spares them as young |
| Importer.Importer.ReplaceServiceDir | internal/packageimport/importer.go:1816-1838 | The swap through the backup, cut at each of its operations |
| Importer.Importer.Rollback | internal/packageimport/importer.go:1839-1848 | Remove the new dir, move the backup back, cut at each |
| Importer.Importer.CommitImportedService | internal/packageimport/importer.go:542-559 | Exactly the commit protocol on its own service, and no other service, row or tree |
| Importer.Importer.StageServiceCommit | internal/packageimport/importer.go:446-498 | The staged dir holds the artifact, the descriptor and both trees, linked or copied |
| ImportState.StagedHoldsTrees | internal/packageimport/importer.go:457-493 | A committed dir of an unshareable package holds its package and its runtime; of a shareable one, two links to one tree in the store made of exactly its artifact, modules and offline flag |
| ImportState.KeysDistinguish | internal/packageimport/shared_tree.go:120-137 | Two packages share a tree exactly when nothing that goes into one differs |
| ImportState.LinksResolve | internal/packageimport/gc.go:115-132 | Every package or runtime link of a service, a backup, or the service dir in a staging tree leads to a tree |
| Importer.Importer.PublishSharedTree | internal/packageimport/shared_tree.go:352-370 | One rename into the store, or the taken key's tree kept |
| Importer.Importer.PrepareServiceRuntime | internal/packageimport/importer.go:390-419 | Reuse, or build and publish, under the package's key; links never dangle |
| Importer.Importer.Import | internal/packageimport/importer.go:247-341 | One import: its service is untouched or committed (cut or not), nothing else moves but at most one new whole tree, the staging tree is gone when it returns, and a stored one holds its own copies or links to its own shared tree |
| Importer.Importer.ImportRecursive | internal/packageimport/importer.go:561-718 | Many services of one package: settled before, settled after, safe if cut; when all rows can be written it succeeds, and each service holds its row, its package and its runtime |
| Importer.Importer.InterruptedCommitNeedsRollback | internal/packageimport/recovery.go:159-192 | Decides by both hashes |
| Importer.Importer.RecoverServiceDir | internal/packageimport/recovery.go:83-113 | One backup: the recovery protocol on its service |
| Importer.Importer.RecoverServiceDirs | internal/packageimport/recovery.go:54-118 | Uncut: every service recovered, no staging tree or backup left, other names untouched, the report exact, and a settled store unchanged. Cut: every service untouched, recovered or on the way |
| ImportState.SweepTwice | internal/packageimport/recovery.go:54-118 | A second completed sweep over the whole store changes no entry |
| Importer.Importer.ReferencedSharedTrees | internal/packageimport/gc.go:133-181 | Exactly the keys linked from package and runtime entries one and two levels down |
| Importer.Importer.SweepOrphanedTrees | internal/packageimport/gc.go:55-97 | The sweep over the store, cut or not; every link still leads to a tree |
| Importer.Importer.Live | internal/packageimport/recovery.go:42-118 | Any number of daemon lives of imports, recursive imports and sweeps, each cut anywhere: every link leads to a tree, live or backup matches each row, a life not cut ends settled, and with no sweep cut every tree is whole |
| ImportState.StagedMatches | internal/packageimport/importer.go:446-540 | A staged dir matches the row the import writes |
| ImportState.StagingNames | internal/packageimport/importer.go:258-266 | A staging tree's name is no service's live or backup name |
| Descriptors.VisitAddsReachable | internal/protocol/reflection.go:281-301 | From a closed set the traversal adds exactly what its root reaches by imports, cycles or not |
| Descriptors.ClosureOrder | internal/protocol/reflection.go:303-330 | A file's closure is exactly what it reaches, each once, and lists imports before importers if and only if what it reaches has no import cycle |
| Descriptors.FileClosure.CollectAll | internal/protocol/reflection.go:181-200 | With one shared out, the roots of a capset collect exactly what any of them reaches |
| Descriptors.FileClosure.VisitFile | internal/protocol/reflection.go:286-300 | The recursive visit, with termination on cycles |
| Descriptors.ReflectionIndex.Closure | internal/protocol/reflection.go:303-330 | Cached or not, the encodings of the closure in order, and a cache that holds only closures |
| Descriptors.ByNameReads | internal/protocol/reflection.go:281-285 | The index holds the last file of each name |
| Descriptors.EncodedReads | internal/protocol/reflection.go:303-330 | With every file encodable the answer has one encoding per file, in order |
| AliasView.Plans.AliasPlan | sdk/src/protobuf-json.ts:75-122 | The plan, built or cached: aliases, nested fields and groups, stated outright |
| AliasView.PlansAreUnique | sdk/src/protobuf-json.ts:75-122 | A schema has one plan |
| AliasView.ResolvesExactly | sdk/src/protobuf-json.ts:90-109 | A name resolves to a field exactly when that field alone claims it and the message does not answer to it |
| AliasView.MessageView.SetProperty | sdk/src/protobuf-json.ts:137-144 | A write through the view |
| AliasView.MessageView.SetField | sdk/src/protobuf-json.ts:214-228 | The field write, through its oneof group |
| AliasView.WriteThenRead | sdk/src/protobuf-json.ts:124-154 | A write through an alias, then a read, gives the written value |
| AliasView.WriteIsLocal | sdk/src/protobuf-json.ts:214-228 | It reaches one property: fields kept elsewhere read as before, a oneof sibling is displaced by a value, and clearing a member that is not current changes nothing |
| AliasView.OtherNamesUnmoved | sdk/src/protobuf-json.ts:124-154 | Every other name reads as before through the view |
| AliasView.AliasAgrees | sdk/src/protobuf-json.ts:124-166 | An alias reads what the field's own name reads |
| AliasView.NestedAreViewed | sdk/src/protobuf-json.ts:124-192 | A message that answers to aliases is viewed under its own name, under an alias and through its oneof group; so is a list or map of messages |
| AliasView.GroupsAreViewed | sdk/src/protobuf-json.ts:113-192 | A oneof with a member that holds messages is handed over as a view of its group |
| AliasView.OwnNameWrites | sdk/src/protobuf-json.ts:137-144 | A write under a name of the message's own is a plain write |
| AliasView.WriteBackAndTwice | sdk/src/protobuf-json.ts:204-228 | Writing back what is there changes nothing, and the last of two writes stays |
| RuntimeTree.CopyDir | internal/packageimport/importer.go:1875-1897 | It succeeds if and only if nothing in the destination is in the way of an entry, and then lays the source's folders and regular files over it |
| RuntimeTree.BuildRuntimeTree | internal/packageimport/shared_tree.go:444-463 | The package, then the carried node_modules over it; without carried modules it never fails, and with them only if the package is in their way |
| RuntimeTree.PredictionExact | internal/packageimport/shared_tree.go:288-327 | For declared dependencies, needsRuntimeInstall is the opposite of runtimeDependenciesInstalled on the built tree if and only if being carried means being in place |
| RuntimeTree.PredictionHolds | internal/packageimport/shared_tree.go:288-327 | So it is whenever no symlink leads to a dependency |
| RuntimeTree.ShareableNeverInstalls | internal/packageimport/shared_tree.go:255-267 | A shareable tree that declares dependencies never runs an install, also with a symlinked package.json |
| RuntimeTree.PredictionReads | internal/packageimport/shared_tree.go:288-317 | The prediction is an install if and only if some dependency, optional dependency, or peer not marked optional is carried by neither source |
| RuntimeTree.GateReads | internal/packageimport/importer.go:1619-1635 | The gate says installed if and only if every such name is in the tree, or node_modules is when there is none |
| RuntimeTree.OptionalPeerIsSilent | internal/packageimport/importer.go:1707-1746 | Declaring a peer marked optional changes neither answer |
| RuntimeTree.ShareableTreeIsComplete | internal/packageimport/shared_tree.go:255-317 | A shareable tree holds every such name |
| RuntimeTree.LinkedScopeMisleads | internal/packageimport/shared_tree.go:319-327 | A symlinked scope directory makes the prediction wrong |
| Health.EncodeVarint | sdk/src/health.ts:126-138 | The encoder's loop |
| Health.DecodeVarint | sdk/src/health.ts:140-153 | The decoder's loop, for any buffer |
| Health.VarintRoundTrip | sdk/src/health.ts:126-153 | Every 32-bit value comes back with the exact next index in at most five bytes, and as a JavaScript number if and only if it is below 2^31 |
| Health.WireFormat | sdk/src/health.ts:126-138 | The standard's example bytes |
| Health.EncodeStringField | sdk/src/health.ts:82-93 | One tag byte, the length, the bytes; nothing for an empty value |
| Health.DecodeFirstStringField | sdk/src/health.ts:95-124 | The scan, with as many rounds as the buffer has bytes; it runs out of them if and only if the source's loop never ends |
| Health.EndlessExactly | sdk/src/health.ts:95-124 | A scan that ends at all ends within as many rounds as there are bytes |
| Health.ScanMayNotEnd | sdk/src/health.ts:95-124 | A buffer over which it never ends |
| Health.DecodesAnyFields | sdk/src/health.ts:82-124 | Called on any sequence of encoded string fields it gives the first with the number asked for |
| Health.RoundReadsField | sdk/src/health.ts:82-124 | A round at an encoded field finds its bytes or moves just past it |
| Health.FirstFieldRoundTrip | sdk/src/health.ts:82-124 | Of any sequence of encoded string fields the first with the number asked for is found, or nothing if there is none |
| Health.StringFieldRoundTrip | sdk/src/health.ts:82-124 | A non-empty field comes back if and only if its number fits the one tag byte |
| Health.ScanEnds | sdk/src/health.ts:95-124 | With no length reading as negative, which a caller can check, the scan moves forward and ends |
| Gateway.WarmStream.Release | internal/protocol/gateway.go:1705-1716 | The first release calls the closure, no other does |
| Gateway.WarmStream.Exchange | internal/protocol/gateway.go:1718-1736 | A message refreshes the clock; anything else drops the ref |
| Gateway.InvokeRaw | internal/protocol/gateway.go:1568-1618 | Unary: a ref exactly for a started scale-to-zero instance, released once |
| Gateway.NewBackendStream | internal/protocol/gateway.go:1656-1692 | A stream that does not open has given its ref back |
| Gateway.ProxyServerStream | internal/protocol/grpc.go:79-108 | Released once on every path |
| Gateway.ProxyClientStream | internal/protocol/grpc.go:110-144 | Released once on every path |
| Gateway.ProxyBidiStream | internal/protocol/grpc.go:146-195 | Released once when the proxy has returned, under any interleaving with pumps that outlive it |

## Left out

- Process objects are values in a sequence and a handle stands for the pointer; the model does not have aliasing of a processState beyond that.
- One instance id is one state. The supervisor's maps are keyed by id and a gated operation touches its own key, so other ids are not part of a step; `Fleet` and `Reconcile` put many ids side by side.
- Within a gated operation an exit or Shutdown's cancellation comes at the points named by the fates, not between any two instructions; the health failure and the cancellation that coincide are resolved in the code's own order of checks.
- Later reads of the store within one operation succeed when the first did, except where a fate says otherwise.
- Spawning, ports, pipes, logs, /proc parsing, the zombie check of the pid probe, hardening and health dialling are outcomes of a start, a stop or a probe. Which error a failed start reports is not part of this model.
- notifyInstanceChanged, the counters and the log lines.
- Wall-clock lengths (backoff, timeouts, TTL): times are integers and only compared.
- RecoverEnabled and RunBounded: a start per enabled row at boot, already a step.
- The HTTP side of restartEnabledServiceInstances (internal/admin/admin.go:1110-1219): its effects on an instance, ApplyServiceRuntimeMode and RestartIfWarm, are steps.
- Service deletion, which takes no import lock, and two daemons on one data dir.
- File errors other than a crash; the copy fallback where symlinks are not available; link targets spelled through another data dir path.
- A file copy that a crash cuts leaves nothing of that file; a directory copy may leave any part of itself.
- Preparing a package (npm, git, archives, manifests, schemas, descriptors) is a value with its contents; SHA-256 is injective, so contents stand for hashes and a key for its digest.
- UTF-8 in the health codec: strings are their bytes.
- Views of list and map elements, symbol-keyed properties and inherited setters of the alias view; identity of a view across reads.
- Gateway: backend connections, error codes, the on-demand path's subprocess and the re-read of the row before a call.
- The HTTP, Connect, MCP and OpenAPI handlers, the CLI, SQL, schema validation, access logs and egress rules.
