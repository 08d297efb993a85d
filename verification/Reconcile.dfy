/** The reconcile backstop as one pass over every instance (internal/supervisor/reconcile.go). */
module Reconcile {
  import opened Domain
  import opened Lifecycle
  import opened Operations

  /** probe: a live pid claims the instance when the pass scans its row. */
  datatype PassFate = PassFate(surplus: ReconcileFate, probe: bool, repair: ReconcileFate)

  /** A claim of liveness by a resident row with nothing behind it, as the pass scans for it. */
  predicate Claimed(row: Option<Row>, services: map<string, Service>) {
    && row.Some? && row.value.service in services
    && row.value.enabled && ClaimsLiveness(row.value.status)
    && ResidentMode(EffectiveRuntimeMode(services[row.value.service], row.value.mode))
  }

  /** What the second half of the pass does to an instance whose row it read as `row`. */
  function Repair(row: Option<Row>, s: Sys, f: PassFate): Sys {
    if !NeedsRepair(row, s, f) then s
    else if ClaimedMode(row, s) == LongRunning then ReconcileMissing(s, f.repair).0
    else ReconcileStale(s, f.repair).0
  }

  predicate NeedsRepair(row: Option<Row>, s: Sys, f: PassFate) {
    Claimed(row, s.services) && s.tracked.None? && !(row.value.pid.Some? && f.probe)
  }

  function ClaimedMode(row: Option<Row>, s: Sys): RuntimeMode
    requires Claimed(row, s.services)
  {
    EffectiveRuntimeMode(s.services[row.value.service], row.value.mode)
  }

  function ReconcileOne(s: Sys, f: PassFate): Sys {
    Repair(s.row, ReconcileSurplus(s, f.surplus).0, f)
  }

  // ----- orphans ---------------------------------------------------------------

  const MAX_ORPHANS_PER_PASS := 32

  /** A process found running for an instance. same: its start time still reads as scanned. */
  datatype Scanned = Scanned(id: string, handle: nat, exact: bool, pastGrace: bool, same: bool, signalled: bool)

  predicate IsTracked(slots: map<string, Sys>, p: Scanned) {
    p.id in slots && slots[p.id].tracked == Some(p.handle)
  }

  /** The orphan stage, with `left` more orphans to take up. */
  function OrphansKilled(slots: map<string, Sys>, scanned: seq<Scanned>, left: nat): map<string, Sys> {
    if scanned == [] then slots
    else
      var p := scanned[0];
      if !p.exact || !p.pastGrace || IsTracked(slots, p) || left == 0 then OrphansKilled(slots, scanned[1..], left)
      else if p.same && p.signalled && p.id in slots then
        OrphansKilled(slots[p.id := KillOrphan(slots[p.id], p.handle)], scanned[1..], left - 1)
      else OrphansKilled(slots, scanned[1..], left - 1)
  }

  /** t is s with some processes killed, and not the tracked one. */
  predicate OnlyOrphansKilled(s: Sys, t: Sys) {
    && t == s.(heap := t.heap) && |t.heap| == |s.heap|
    && forall h :: 0 <= h < |s.heap| ==> t.heap[h] == s.heap[h] || (s.tracked != Some(h) && t.heap[h] == s.heap[h].(killed := true))
  }

  lemma {:induction false} OrphansSpareTracked(slots: map<string, Sys>, scanned: seq<Scanned>, left: nat, id: string)
    requires id in slots
    ensures OrphansKilled(slots, scanned, left).Keys == slots.Keys
    ensures OnlyOrphansKilled(slots[id], OrphansKilled(slots, scanned, left)[id])
    decreases |scanned|
  {
    if scanned != [] {
      var p := scanned[0];
      if !p.exact || !p.pastGrace || IsTracked(slots, p) || left == 0 {
        OrphansSpareTracked(slots, scanned[1..], left, id);
      } else if p.same && p.signalled && p.id in slots {
        OrphansSpareTracked(slots[p.id := KillOrphan(slots[p.id], p.handle)], scanned[1..], left - 1, id);
      } else {
        OrphansSpareTracked(slots, scanned[1..], left - 1, id);
      }
    }
  }

  /** How many of the first k scanned processes the stage takes up. */
  function TakenUp(slots: map<string, Sys>, scanned: seq<Scanned>, k: nat): nat
    requires k <= |scanned|
  {
    if k == 0 then 0
    else
      var p := scanned[k - 1];
      TakenUp(slots, scanned, k - 1) + if p.exact && p.pastGrace && !IsTracked(slots, p) then 1 else 0
  }

  lemma {:induction false} TakenUpTail(slots: map<string, Sys>, after: map<string, Sys>, scanned: seq<Scanned>, k: nat)
    requires 0 < k <= |scanned| && forall p: Scanned :: IsTracked(after, p) <==> IsTracked(slots, p)
    ensures TakenUp(slots, scanned, k) ==
            TakenUp(after, scanned[1..], k - 1)
            + if scanned[0].exact && scanned[0].pastGrace && !IsTracked(slots, scanned[0]) then 1 else 0
  {
    if k > 1 {
      TakenUpTail(slots, after, scanned, k - 1);
      assert scanned[1..][k - 2] == scanned[k - 1];
    } else {
      assert TakenUp(slots, scanned, 0) == 0;
    }
  }

  lemma KillingMovesNoTrack(slots: map<string, Sys>, id: string, h: nat)
    requires id in slots
    ensures forall p: Scanned :: IsTracked(slots[id := KillOrphan(slots[id], h)], p) <==> IsTracked(slots, p)
  {
  }

  /** The stage does kill: an exact, old enough, untracked process whose start still matches and
      that takes the signal, unless as many as a pass may take were scanned before it. */
  lemma {:induction false} OrphansAreKilled(slots: map<string, Sys>, scanned: seq<Scanned>, left: nat, k: nat)
    requires k < |scanned| && TakenUp(slots, scanned, k) < left
    requires var p := scanned[k];
      && p.exact && p.pastGrace && p.same && p.signalled && p.id in slots && p.handle < |slots[p.id].heap| && !IsTracked(slots, p)
    ensures var t := OrphansKilled(slots, scanned, left);
      && scanned[k].id in t && scanned[k].handle < |t[scanned[k].id].heap|
      && t[scanned[k].id].heap[scanned[k].handle].killed
    decreases k
  {
    var p, q := scanned[0], scanned[k];
    if k == 0 {
      OrphansSpareTracked(slots[p.id := KillOrphan(slots[p.id], p.handle)], scanned[1..], left - 1, p.id);
    } else {
      assert scanned[1..][k - 1] == q;
      TakenUpTail(slots, slots, scanned, k);
      if !p.exact || !p.pastGrace || IsTracked(slots, p) {
        OrphansAreKilled(slots, scanned[1..], left, k - 1);
      } else if p.same && p.signalled && p.id in slots {
        var next := slots[p.id := KillOrphan(slots[p.id], p.handle)];
        KillingMovesNoTrack(slots, p.id, p.handle);
        TakenUpTail(slots, next, scanned, k);
        OrphansAreKilled(next, scanned[1..], left - 1, k - 1);
      } else {
        OrphansAreKilled(slots, scanned[1..], left - 1, k - 1);
      }
    }
  }

  // ----- the fixpoint ----------------------------------------------------------

  predicate StartSucceeds(f: StartFate) {
    f.read && f.prep && f.claim && f.spawn && f.announce && f.settle && f.health && !f.cancelEarly && !f.cancelLate
  }

  /** Reads, writes, stops and starts work, and no untracked pid claims the instance. */
  predicate Works(f: ReconcileFate) {
    && f.read && f.write && f.land && !f.probe
    && f.stop.first == Seen && f.stop.write && StartSucceeds(f.start)
  }

  /** Nothing for a pass to do. */
  predicate Quiet(s: Sys) {
    !Surplus(s) && (Claimed(s.row, s.services) ==> s.tracked.Some?)
  }

  predicate Cold(row: Row) {
    row.status == Stopped && row.pid == None && row.addr == ""
  }

  /** The states a pass leaves alone, whatever its fate, are exactly the quiet ones. */
  lemma FixpointsAreQuiet(s: Sys)
    ensures (forall f :: ReconcileOne(s, f) == s) <==> Quiet(s)
  {
    if !Quiet(s) {
      var start := StartFate(true, true, true, true, true, true, 0, "", false, 0, true, false);
      var f := ReconcileFate(true, false, true, true, StopFate(Seen, true, true), start);
      QuietIsNeeded(s, f);
      assert ReconcileOne(s, PassFate(f, false, f)) != s;
    }
  }

  lemma QuietIsNeeded(s: Sys, f: ReconcileFate)
    requires Works(f) && !Quiet(s)
    ensures ReconcileOne(s, PassFate(f, false, f)) != s
  {
    if Surplus(s) {
      SurplusMoves(s, f);
    } else {
      MissingMoves(s, f);
    }
  }

  lemma SurplusMoves(s: Sys, f: ReconcileFate)
    requires Works(f) && Surplus(s)
    ensures var t := ReconcileSurplus(s, f).0;
            && t.generation == s.generation + 1 && t.tracked == None && t.services == s.services && t.row.Some?
            && (if Mode(s) == OnDemand then t.row.value == LandedRow(s.row.value, s.row.value.mode)
                else t.row.value == ColdRow(s.row.value))
  {
  }

  lemma StartWorks(s: Sys, f: StartFate)
    requires StartSucceeds(f) && !s.cancelled && Known(s) && Mode(s) != OnDemand && s.tracked == None
    ensures var t := StartLocked(s, f).0;
            && Live(t) && t.services == s.services && t.generation == s.generation + 1 && t.row.Some?
            && t.heap[t.tracked.value].pid == f.pid && !t.heap[t.tracked.value].killed && t.heap[t.tracked.value].alive
            && t.row.value == s.row.value.(enabled := true, status := Running, pid := Some(f.pid), addr := "127.0.0.1:" + f.port)
  {
  }

  lemma StartMoves(s: Sys, f: StartFate)
    ensures StartLocked(s, f).0.generation > s.generation
  {
  }

  lemma MissingMoves(s: Sys, f: ReconcileFate)
    requires Works(f) && !Surplus(s) && Claimed(s.row, s.services) && s.tracked.None?
    ensures ReconcileOne(s, PassFate(f, false, f)) != s
  {
    hide StartLocked;
    StartMoves(s, f.start);
    StartMoves(Write(s, ColdRow(s.row.value), true), f.start);
  }

  /**
   * One pass that runs alone over drained watchers, with starts and stops that work, leaves
   * every enabled long-running row that claimed to live with a live process and its pid, no
   * process under a disabled or on-demand row, and every stale scale-to-zero row cold.
   */
  lemma OnePassSettles(s: Sys, f: PassFate)
    requires Works(f.surplus) && !f.probe && Works(f.repair) && !s.cancelled
    requires s.tracked.Some? ==> Live(s)
    ensures var t := ReconcileOne(s, f);
            var claims := Known(s) && s.row.value.enabled && s.row.value.status != Stopped;
            && Quiet(t)
            && (t.tracked.Some? ==> Live(t))
            && (claims && Mode(s) == LongRunning ==> Live(t) && ClaimsResident(t, LongRunning))
            && (claims && Mode(s) == LongRunning && s.tracked.None? ==>
                  t.row.value.pid == Some(t.heap[t.tracked.value].pid) && t.row.value.status == Running)
            && (Known(t) && (!t.row.value.enabled || Mode(t) == OnDemand) ==> t.tracked == None)
            && (claims && Mode(s) == ScaleToZero && s.tracked.None? ==> t == Write(s, ColdRow(s.row.value), true))
  {
    hide StartLocked, StopProcess;
    if Surplus(s) {
      SurplusMoves(s, f.surplus);
    } else if ClaimsResident(s, LongRunning) && s.tracked.None? {
      StartWorks(s, f.repair.start);
      StartWorks(Write(s, ColdRow(s.row.value), true), f.repair.start);
    }
  }

  /** And a second pass changes nothing, however its own calls turn out. */
  lemma SecondPassIsIdle(s: Sys, f: PassFate, again: PassFate)
    requires Works(f.surplus) && !f.probe && Works(f.repair) && !s.cancelled
    requires s.tracked.Some? ==> Live(s)
    ensures ReconcileOne(ReconcileOne(s, f), again) == ReconcileOne(s, f)
  {
    hide ReconcileOne, Quiet;
    OnePassSettles(s, f);
    FixpointsAreQuiet(ReconcileOne(s, f));
  }

  /** A pass never touches an instance an operator stopped, beyond stopping what it still runs. */
  lemma PassKeepsStops(s: Sys, f: PassFate)
    requires s.row.Some? && !s.row.value.enabled && (Known(s) ==> Mode(s) != OnDemand)
    ensures var t := ReconcileOne(s, f);
            && t.row.Some? && !t.row.value.enabled && |t.heap| == |s.heap| && (t.tracked == s.tracked || t.tracked == None)
  {
    hide StopProcess, StartLocked;
    StopKeepsDisabled(s, f.surplus.stop);
  }

  lemma StopKeepsDisabled(s: Sys, f: StopFate)
    requires s.row.Some?
    ensures var t := StopProcess(s, s.row.value, s.row.value.enabled, f).0;
            && t.row.Some? && t.row.value.enabled == s.row.value.enabled && |t.heap| == |s.heap| && t.tracked == None
  {
  }

  /** The rows, and what is tracked, when the second half of a pass begins. */
  ghost predicate Sorts(snapshot: map<string, Sys>, slots: map<string, Sys>, id: string, stale: seq<string>, missing: seq<string>,
                        f: PassFate)
    requires id in snapshot && id in slots
  {
    var needs := NeedsRepair(snapshot[id].row, slots[id], f);
    && (id in missing <==> needs && ClaimedMode(snapshot[id].row, slots[id]) == LongRunning)
    && (id in stale <==> needs && ClaimedMode(snapshot[id].row, slots[id]) != LongRunning)
  }

  class Backstop {
    var slots: map<string, Sys>

    constructor (slots: map<string, Sys>)
      ensures this.slots == slots
    {
      this.slots := slots;
    }

    method KillOrphans(scanned: seq<Scanned>)
      modifies this
      ensures slots == OrphansKilled(old(slots), scanned, MAX_ORPHANS_PER_PASS)
    {
      hide KillOrphan;
      var orphans := 0;
      for i := 0 to |scanned|
        invariant 0 <= orphans <= MAX_ORPHANS_PER_PASS
        invariant OrphansKilled(slots, scanned[i..], MAX_ORPHANS_PER_PASS - orphans)
               == OrphansKilled(old(slots), scanned, MAX_ORPHANS_PER_PASS)
      {
        var p := scanned[i];
        assert scanned[i..][0] == p && scanned[i..][1..] == scanned[i + 1..];
        if p.exact && p.pastGrace && !IsTracked(slots, p) && orphans < MAX_ORPHANS_PER_PASS {
          orphans := orphans + 1;
          if p.same && p.signalled && p.id in slots {
            slots := slots[p.id := KillOrphan(slots[p.id], p.handle)];
          }
        }
      }
    }

    /** scanned: the processes found; order: the ids as the rows and the tracked entries are
        listed. */
    method ReconcileProcesses(scanned: seq<Scanned>, order: seq<string>, fate: string -> PassFate)
      requires forall id :: id in order <==> id in slots
      requires NoRepeats(order)
      modifies this
      ensures slots.Keys == old(slots).Keys
      ensures forall id :: id in slots ==>
                id in OrphansKilled(old(slots), scanned, MAX_ORPHANS_PER_PASS)
                && slots[id] == ReconcileOne(OrphansKilled(old(slots), scanned, MAX_ORPHANS_PER_PASS)[id], fate(id))
    {
      hide NeedsRepair, ClaimedMode, ReconcileSurplus, ReconcileStale, ReconcileMissing, NoRepeats;
      KillOrphans(scanned);
      SameIds(old(slots), scanned);
      var snapshot := slots;
      StopSurplus(order, fate);
      ghost var mid := slots;
      var stale, missing := FindStaleAndMissing(order, snapshot, fate);
      RepairStale(stale, fate);
      ghost var low := slots;
      RestartMissing(missing, fate);
      forall id | id in slots ensures slots[id] == ReconcileOne(snapshot[id], fate(id)) {
        assert Sorts(snapshot, mid, id, stale, missing, fate(id));
        assert mid[id] == ReconcileSurplus(snapshot[id], fate(id).surplus).0;
      }
    }

    method StopSurplus(order: seq<string>, fate: string -> PassFate)
      requires forall id :: id in order <==> id in slots
      requires NoRepeats(order)
      modifies this
      ensures slots.Keys == old(slots).Keys
      ensures forall id :: id in slots ==> slots[id] == ReconcileSurplus(old(slots)[id], fate(id).surplus).0
    {
      for i := 0 to |order|
        invariant slots.Keys == old(slots).Keys
        invariant forall id :: id in slots ==>
                    slots[id] == if id in order[..i] then ReconcileSurplus(old(slots)[id], fate(id).surplus).0 else old(slots)[id]
      {
        var id := order[i];
        assert order[..i + 1] == order[..i] + [id];
        NotYet(order, i);
        SurplusOnly(slots[id], fate(id).surplus);
        hide *;
        if Surplus(slots[id]) {
          var (s, _) := ReconcileSurplus(slots[id], fate(id).surplus);
          slots := slots[id := s];
        }
      }
      assert order[..|order|] == order;
    }

    method FindStaleAndMissing(order: seq<string>, snapshot: map<string, Sys>, fate: string -> PassFate)
      returns (stale: seq<string>, missing: seq<string>)
      requires forall id :: id in order <==> id in slots
      requires NoRepeats(order) && snapshot.Keys == slots.Keys
      ensures NoRepeats(stale) && NoRepeats(missing)
      ensures forall id :: id in stale || id in missing ==> id in slots
      ensures forall id :: id in slots ==> Sorts(snapshot, slots, id, stale, missing, fate(id))
    {
      stale, missing := [], [];
      for i := 0 to |order|
        invariant NoRepeats(stale) && NoRepeats(missing)
        invariant forall id :: id in stale || id in missing ==> id in order[..i]
        invariant forall id :: id in order[..i] ==> Sorts(snapshot, slots, id, stale, missing, fate(id))
      {
        hide NeedsRepair, ClaimedMode;
        var id := order[i];
        assert order[..i + 1] == order[..i] + [id];
        NotYet(order, i);
        if NeedsRepair(snapshot[id].row, slots[id], fate(id)) {
          if ClaimedMode(snapshot[id].row, slots[id]) == LongRunning {
            missing := missing + [id];
          } else {
            stale := stale + [id];
          }
        }
      }
      assert order[..|order|] == order;
    }

    method RepairStale(stale: seq<string>, fate: string -> PassFate)
      requires NoRepeats(stale) && forall id :: id in stale ==> id in slots
      modifies this
      ensures slots.Keys == old(slots).Keys
      ensures forall id :: id in slots ==>
                slots[id] == if id in stale then ReconcileStale(old(slots)[id], fate(id).repair).0 else old(slots)[id]
    {
      for i := 0 to |stale|
        invariant slots.Keys == old(slots).Keys
        invariant forall id :: id in slots ==>
                    slots[id] == if id in stale[..i] then ReconcileStale(old(slots)[id], fate(id).repair).0 else old(slots)[id]
      {
        var id := stale[i];
        assert stale[..i + 1] == stale[..i] + [id];
        NotYet(stale, i);
        hide *;
        var (s, _) := ReconcileStale(slots[id], fate(id).repair);
        slots := slots[id := s];
      }
      assert stale[..|stale|] == stale;
    }

    method RestartMissing(missing: seq<string>, fate: string -> PassFate)
      requires NoRepeats(missing) && forall id :: id in missing ==> id in slots
      modifies this
      ensures slots.Keys == old(slots).Keys
      ensures forall id :: id in slots ==>
                slots[id] == if id in missing then ReconcileMissing(old(slots)[id], fate(id).repair).0 else old(slots)[id]
    {
      for i := 0 to |missing|
        invariant slots.Keys == old(slots).Keys
        invariant forall id :: id in slots ==>
                    slots[id] == if id in missing[..i] then ReconcileMissing(old(slots)[id], fate(id).repair).0 else old(slots)[id]
      {
        var id := missing[i];
        assert missing[..i + 1] == missing[..i] + [id];
        NotYet(missing, i);
        hide *;
        var (s, _) := ReconcileMissing(slots[id], fate(id).repair);
        slots := slots[id := s];
      }
      assert missing[..|missing|] == missing;
    }
  }

  lemma SameIds(slots: map<string, Sys>, scanned: seq<Scanned>)
    ensures OrphansKilled(slots, scanned, MAX_ORPHANS_PER_PASS).Keys == slots.Keys
  {
    if id :| id in slots {
      OrphansSpareTracked(slots, scanned, MAX_ORPHANS_PER_PASS, id);
    } else {
      NoneToKill(slots, scanned, MAX_ORPHANS_PER_PASS);
    }
  }

  lemma {:induction false} NoneToKill(slots: map<string, Sys>, scanned: seq<Scanned>, left: nat)
    requires slots == map[]
    ensures OrphansKilled(slots, scanned, left) == slots
    decreases |scanned|
  {
    if scanned != [] {
      NoneToKill(slots, scanned[1..], left);
      if left > 0 {
        NoneToKill(slots, scanned[1..], left - 1);
      }
    }
  }

  predicate NoRepeats(s: seq<string>) {
    forall i, j :: 0 <= i < j < |s| ==> s[i] != s[j]
  }

  lemma NotYet(s: seq<string>, i: nat)
    requires NoRepeats(s) && i < |s|
    ensures s[i] !in s[..i]
  {
  }

  lemma SurplusOnly(s: Sys, f: ReconcileFate)
    ensures !Surplus(s) ==> ReconcileSurplus(s, f).0 == s
  {
  }
}
