/** The scale-to-zero scan, which looks at every instance at once
    (internal/supervisor/scaletozero.go). */
module Fleet {
  import opened Domain
  import opened Lifecycle
  import opened Operations

  // ----- the warm pool ---------------------------------------------------------

  predicate Warm(s: Sys) {
    s.tracked.Some? && s.tracked.value < |s.heap| && s.heap[s.tracked.value].scaleToZero
  }

  function Refs(s: Sys): int
    requires Warm(s)
  {
    s.heap[s.tracked.value].refs
  }

  /** a was last active strictly before b; a missing entry is the zero time. */
  predicate Older(a: Option<int>, b: Option<int>) {
    b.Some? && (a.None? || a.value < b.value)
  }

  predicate Expired(s: Sys, now: int, ttl: int) {
    Warm(s) && Refs(s) <= 0 && ttl > 0 && (s.lastActivity.None? || now - s.lastActivity.value > ttl)
  }

  ghost function WarmIds(slots: map<string, Sys>): set<string> {
    set id | id in slots && Warm(slots[id])
  }

  /** Warm, held by no request, and not tried yet in this pass. */
  predicate Candidate(slots: map<string, Sys>, parked: set<string>, id: string) {
    id in slots && Warm(slots[id]) && Refs(slots[id]) <= 0 && id !in parked
  }

  ghost predicate Enumerates(order: seq<string>, slots: map<string, Sys>) {
    && (forall id :: id in order <==> id in slots)
    && (forall i, j :: 0 <= i < j < |order| ==> order[i] != order[j])
  }

  /** A stop that sees the exit and writes the row. */
  predicate StopSucceeds(f: StopFate) {
    f.first == Seen && f.write
  }

  lemma ParkOutcome(s: Sys, now: int, f: ParkFate)
    requires StopSucceeds(f.stop)
    ensures var (t, ok) := Park(s, now, f); if ok then t.tracked == None else t == s
  {
  }

  /** One more id leaves the warm set. */
  lemma OneLessWarm(before: map<string, Sys>, after: map<string, Sys>, id: string)
    requires id in before && Warm(before[id]) && after.Keys == before.Keys && !Warm(after[id])
    requires forall k :: k in before && k != id ==> after[k] == before[k]
    ensures |WarmIds(after)| == |WarmIds(before)| - 1
  {
    assert WarmIds(after) == WarmIds(before) - {id};
  }

  /** What an eviction pass that runs alone has done so far, seen from where it began. */
  ghost predicate Evicting(before: map<string, Sys>, slots: map<string, Sys>, evicted: seq<string>, tried: set<string>,
                           now: int, fate: string -> ParkFate, warmCap: nat)
  {
    && slots.Keys == before.Keys
    && (forall id :: id in slots && id !in evicted ==> slots[id] == before[id])
    && (forall id :: id in evicted ==> WasEvicted(before, slots, id, now, fate))
    && |WarmIds(slots)| + |evicted| == |WarmIds(before)|
    && (evicted != [] ==> |WarmIds(slots)| >= warmCap)
    && (forall v, u :: v in evicted && Candidate(slots, tried, u) ==> LongerIdle(before, v, slots, u))
  }

  ghost predicate WasEvicted(before: map<string, Sys>, slots: map<string, Sys>, id: string, now: int, fate: string -> ParkFate) {
    && id in before && id in slots
    && slots[id] == Park(before[id], now, fate(id)).0
    && Warm(before[id]) && Refs(before[id]) <= 0 && !Warm(slots[id])
  }

  /** v had been idle at least as long when it was evicted as u has been now. */
  ghost predicate LongerIdle(before: map<string, Sys>, v: string, slots: map<string, Sys>, u: string) {
    v in before && u in slots && !Older(slots[u].lastActivity, before[v].lastActivity)
  }

  /** Nobody else moves the pool, and every stop sees its exit and writes its row. */
  ghost predicate RunsAlone(env: (nat, map<string, Sys>) -> map<string, Sys>, fate: string -> ParkFate) {
    && (forall k, m :: env(k, m) == m)
    && (forall id :: StopSucceeds(fate(id).stop))
  }

  /** Every id tried and not evicted was refused by its gate and is as it was. */
  ghost predicate OthersRefused(before: map<string, Sys>, slots: map<string, Sys>, evicted: seq<string>, tried: set<string>,
                                already: set<string>, now: int, fate: string -> ParkFate)
  {
    forall id :: id in tried - already && id !in evicted ==>
      id in before && id in slots && slots[id] == before[id] && !Park(before[id], now, fate(id)).1
  }

  ghost predicate IsVictim(slots: map<string, Sys>, tried: set<string>, id: string) {
    && Candidate(slots, tried, id)
    && forall u :: Candidate(slots, tried, u) ==> LongerIdle(slots, id, slots, u)
  }

  /** How many of the first i ids are warm. */
  ghost function WarmCount(slots: map<string, Sys>, order: seq<string>, i: nat): nat
    requires i <= |order|
  {
    if i == 0 then 0
    else WarmCount(slots, order, i - 1) + if order[i - 1] in slots && Warm(slots[order[i - 1]]) then 1 else 0
  }

  lemma EnumeratesAt(order: seq<string>, slots: map<string, Sys>, i: nat)
    requires Enumerates(order, slots) && i < |order|
    ensures order[i] in slots && forall j :: 0 <= j < i ==> order[j] != order[i]
  {
    assert order[i] in order;
  }

  /** Among distinct ids they are as many as there are ids. */
  lemma {:induction false} CountsDistinct(slots: map<string, Sys>, order: seq<string>, i: nat) returns (warm: set<string>)
    requires i <= |order| && forall j, k :: 0 <= j < k < i ==> order[j] != order[k]
    ensures |warm| == WarmCount(slots, order, i)
    ensures forall id :: id in warm <==> id in slots && Warm(slots[id]) && exists j :: 0 <= j < i && order[j] == id
  {
    hide Warm;
    warm := {};
    if i > 0 {
      warm := CountsDistinct(slots, order, i - 1);
      if order[i - 1] in slots && Warm(slots[order[i - 1]]) {
        assert order[i - 1] !in warm;
        warm := warm + {order[i - 1]};
      }
    }
  }

  lemma CountsWarmIds(slots: map<string, Sys>, order: seq<string>)
    requires Enumerates(order, slots)
    ensures WarmCount(slots, order, |order|) == |WarmIds(slots)|
  {
    hide Warm, WarmCount;
    var warm := CountsDistinct(slots, order, |order|);
    assert warm == WarmIds(slots);
  }

  /** A longest-idle candidate among the first i ids, or none of them is one. */
  ghost predicate Best(slots: map<string, Sys>, parked: set<string>, order: seq<string>, i: nat, victim: Option<string>)
    requires i <= |order|
  {
    match victim
    case None => forall j :: 0 <= j < i ==> !Candidate(slots, parked, order[j])
    case Some(v) =>
      && Candidate(slots, parked, v)
      && forall j :: 0 <= j < i && Candidate(slots, parked, order[j]) ==> LongerIdle(slots, v, slots, order[j])
  }

  lemma BestOfNone(slots: map<string, Sys>, parked: set<string>, order: seq<string>)
    ensures Best(slots, parked, order, 0, None)
  {
  }

  lemma BestGoesOn(slots: map<string, Sys>, parked: set<string>, order: seq<string>, i: nat, victim: Option<string>)
    requires i < |order| && Best(slots, parked, order, i, victim)
    ensures victim.Some? ==> victim.value in slots
    ensures if Candidate(slots, parked, order[i])
               && (victim.None? || Older(slots[order[i]].lastActivity, slots[victim.value].lastActivity))
            then Best(slots, parked, order, i + 1, Some(order[i]))
            else Best(slots, parked, order, i + 1, victim)
  {
  }

  lemma BestIsVictim(slots: map<string, Sys>, parked: set<string>, order: seq<string>, victim: Option<string>)
    requires Enumerates(order, slots) && Best(slots, parked, order, |order|, victim)
    ensures victim.None? ==> forall id :: !Candidate(slots, parked, id)
    ensures victim.Some? ==> IsVictim(slots, parked, victim.value)
  {
    forall id | Candidate(slots, parked, id) ensures exists j :: 0 <= j < |order| && order[j] == id { }
  }

  /** The clauses of Evicting but the last, after one more round. */
  lemma EvictCounts(before: map<string, Sys>, slots: map<string, Sys>, evicted: seq<string>, tried: set<string>,
                    now: int, fate: string -> ParkFate, warmCap: nat, id: string)
    requires Evicting(before, slots, evicted, tried, now, fate, warmCap)
    requires Candidate(slots, tried, id) && |WarmIds(slots)| > warmCap && StopSucceeds(fate(id).stop)
    requires Park(slots[id], now, fate(id)).1
    ensures id !in evicted
    ensures var after := slots[id := Park(slots[id], now, fate(id)).0];
            && WasEvicted(before, after, id, now, fate)
            && |WarmIds(after)| == |WarmIds(slots)| - 1
  {
    ParkOutcome(slots[id], now, fate(id));
    hide Park;
    OneLessWarm(slots, slots[id := Park(slots[id], now, fate(id)).0], id);
  }

  /** Evictions stay in idle order when one more victim goes. */
  lemma EvictInOrder(before: map<string, Sys>, slots: map<string, Sys>, evicted: seq<string>, tried: set<string>,
                     id: string, after: map<string, Sys>, v: string, u: string)
    requires forall v, u :: v in evicted && Candidate(slots, tried, u) ==> LongerIdle(before, v, slots, u)
    requires IsVictim(slots, tried, id) && id in before && slots[id] == before[id]
    requires forall k :: k in slots && k != id ==> k in after && after[k] == slots[k]
    requires after.Keys == slots.Keys
    requires v in evicted + [id] && Candidate(after, tried + {id}, u)
    ensures LongerIdle(before, v, after, u)
  {
    assert u != id && Candidate(slots, tried, u);
    assert LongerIdle(before, v, slots, u);
  }

  lemma StillEvicted(before: map<string, Sys>, slots: map<string, Sys>, after: map<string, Sys>, v: string,
                     now: int, fate: string -> ParkFate)
    requires WasEvicted(before, slots, v, now, fate) && (v in slots ==> v in after && after[v] == slots[v])
    ensures WasEvicted(before, after, v, now, fate)
  {
  }

  lemma EvictAccepted(before: map<string, Sys>, slots: map<string, Sys>, evicted: seq<string>, tried: set<string>,
                      now: int, fate: string -> ParkFate, warmCap: nat, id: string, after: map<string, Sys>)
    requires Evicting(before, slots, evicted, tried, now, fate, warmCap)
    requires IsVictim(slots, tried, id) && |WarmIds(slots)| > warmCap && StopSucceeds(fate(id).stop)
    requires Park(slots[id], now, fate(id)).1 && after == slots[id := Park(slots[id], now, fate(id)).0]
    ensures Evicting(before, after, evicted + [id], tried + {id}, now, fate, warmCap)
  {
    hide Park, Warm, WarmIds, StopSucceeds, Refs, Older, WasEvicted, LongerIdle;
    EvictCounts(before, slots, evicted, tried, now, fate, warmCap, id);
    forall v, u | v in evicted + [id] && Candidate(after, tried + {id}, u)
      ensures LongerIdle(before, v, after, u)
    {
      EvictInOrder(before, slots, evicted, tried, id, after, v, u);
    }
    forall v | v in evicted + [id] ensures WasEvicted(before, after, v, now, fate) {
      if v != id {
        assert WasEvicted(before, slots, v, now, fate);
        StillEvicted(before, slots, after, v, now, fate);
      }
    }
  }

  lemma EvictRefused(before: map<string, Sys>, slots: map<string, Sys>, evicted: seq<string>, tried: set<string>,
                     now: int, fate: string -> ParkFate, warmCap: nat, id: string)
    requires Evicting(before, slots, evicted, tried, now, fate, warmCap)
    ensures Evicting(before, slots, evicted, tried + {id}, now, fate, warmCap)
  {
    hide Park, Warm, WarmIds, Refs, WasEvicted;
    forall v, u | v in evicted && Candidate(slots, tried + {id}, u)
      ensures LongerIdle(before, v, slots, u)
    {
      assert Candidate(slots, tried, u);
    }
  }

  /** A victim has not been evicted before, since an evicted id is cold. */
  lemma EvictUntouched(before: map<string, Sys>, slots: map<string, Sys>, evicted: seq<string>, tried: set<string>,
                       now: int, fate: string -> ParkFate, warmCap: nat, id: string)
    requires Evicting(before, slots, evicted, tried, now, fate, warmCap) && Candidate(slots, tried, id)
    ensures id in before && id !in evicted && slots[id] == before[id]
  {
    hide Park, WarmIds, Refs, LongerIdle;
  }

  lemma RefuseRound(before: map<string, Sys>, slots: map<string, Sys>, evicted: seq<string>, tried: set<string>,
                    already: set<string>, now: int, fate: string -> ParkFate, id: string, after: map<string, Sys>, ok: bool)
    requires OthersRefused(before, slots, evicted, tried, already, now, fate)
    requires id in before && id in slots && slots[id] == before[id]
    requires (after, ok) == (slots[id := Park(slots[id], now, fate(id)).0], Park(slots[id], now, fate(id)).1)
    requires !ok ==> after == slots
    ensures OthersRefused(before, after, if ok then evicted + [id] else evicted, tried + {id}, already, now, fate)
  {
    hide Park;
  }

  lemma EvictRound(before: map<string, Sys>, slots: map<string, Sys>, evicted: seq<string>, tried: set<string>,
                   already: set<string>, now: int, fate: string -> ParkFate, warmCap: nat,
                   id: string, after: map<string, Sys>, ok: bool)
    requires Evicting(before, slots, evicted, tried, now, fate, warmCap)
    requires IsVictim(slots, tried, id) && |WarmIds(slots)| > warmCap && StopSucceeds(fate(id).stop)
    requires (after, ok) == (slots[id := Park(slots[id], now, fate(id)).0], Park(slots[id], now, fate(id)).1)
    requires OthersRefused(before, slots, evicted, tried, already, now, fate)
    ensures Evicting(before, after, if ok then evicted + [id] else evicted, tried + {id}, now, fate, warmCap)
    ensures OthersRefused(before, after, if ok then evicted + [id] else evicted, tried + {id}, already, now, fate)
  {
    hide Park, Evicting, WarmIds, Refs, Warm, StopSucceeds, OthersRefused;
    EvictUntouched(before, slots, evicted, tried, now, fate, warmCap, id);
    ParkOutcome(slots[id], now, fate(id));
    if ok {
      EvictAccepted(before, slots, evicted, tried, now, fate, warmCap, id, after);
    } else {
      assert after == slots;
      EvictRefused(before, slots, evicted, tried, now, fate, warmCap, id);
    }
    RefuseRound(before, slots, evicted, tried, already, now, fate, id, after, ok);
  }

  ghost predicate StoppingIdle(before: map<string, Sys>, slots: map<string, Sys>, done: seq<string>, stopped: set<string>,
                               fate: string -> ParkFate, now: int)
  {
    && slots.Keys == before.Keys
    && (forall id :: id in stopped <==> id in done && id in before && Park(before[id], now, fate(id)).1)
    && (forall id :: id in stopped ==> slots[id] == Park(before[id], now, fate(id)).0 && slots[id].tracked == None)
    && (forall id :: id in slots && id !in stopped ==> slots[id] == before[id])
  }

  lemma StopOneIdle(before: map<string, Sys>, slots: map<string, Sys>, done: seq<string>, stopped: set<string>,
                    fate: string -> ParkFate, now: int, id: string, after: map<string, Sys>, ok: bool)
    requires StoppingIdle(before, slots, done, stopped, fate, now)
    requires id in slots && id !in done && StopSucceeds(fate(id).stop)
    requires (after, ok) == (slots[id := Park(slots[id], now, fate(id)).0], Park(slots[id], now, fate(id)).1)
    ensures StoppingIdle(before, after, done + [id], if ok then stopped + {id} else stopped, fate, now)
  {
    hide Park, StopSucceeds;
    assert id !in stopped;
    ParkOutcome(slots[id], now, fate(id));
  }

  /** The idle stage, run alone: exactly the expired instances whose gate agreed are cold. */
  ghost predicate AfterIdle(before: map<string, Sys>, slots: map<string, Sys>, stopped: set<string>,
                            fate: string -> ParkFate, now: int, ttl: int)
  {
    && slots.Keys == before.Keys
    && (forall id :: id in stopped <==> id in before && Expired(before[id], now, ttl) && Park(before[id], now, fate(id)).1)
    && (forall id :: id in stopped ==> slots[id] == Park(before[id], now, fate(id)).0 && slots[id].tracked == None)
    && (forall id :: id in slots && id !in stopped ==> slots[id] == before[id])
  }

  lemma IdleBegins(slots: map<string, Sys>, fate: string -> ParkFate, now: int)
    ensures StoppingIdle(slots, slots, [], {}, fate, now)
  {
  }

  lemma IdleDone(before: map<string, Sys>, slots: map<string, Sys>, expired: seq<string>, stopped: set<string>,
                 fate: string -> ParkFate, now: int, ttl: int)
    requires StoppingIdle(before, slots, expired, stopped, fate, now)
    requires forall id :: id in expired <==> id in before && Expired(before[id], now, ttl)
    ensures AfterIdle(before, slots, stopped, fate, now, ttl)
  {
    hide Park, Expired;
  }

  /** A whole pass, run alone. */
  ghost predicate ScanSettles(before: map<string, Sys>, slots: map<string, Sys>, stopped: set<string>, evicted: seq<string>,
                              fate: string -> ParkFate, now: int, ttl: int, warmCap: int)
  {
    && slots.Keys == before.Keys
    && (forall id :: id in stopped <==> id in before && Expired(before[id], now, ttl) && Park(before[id], now, fate(id)).1)
    && (forall id :: id in stopped || id in evicted ==> id in before && !Warm(slots[id]))
    && (forall id :: id in slots && id !in stopped && id !in evicted ==> slots[id] == before[id])
    && |WarmIds(slots)| + |stopped| + |evicted| == |WarmIds(before)|
    && (evicted != [] ==> |WarmIds(slots)| >= warmCap)
    && (forall v, u :: v in evicted && Spared(before, slots, u, now, fate) ==> LongerIdle(before, v, slots, u))
    && (warmCap > 0 ==>
          (|WarmIds(slots)| <= warmCap
           || forall id :: id in slots && Warm(slots[id]) ==>
                slots[id] == before[id] && (Refs(slots[id]) > 0 || !Park(before[id], now, fate(id)).1)))
  }

  /** Still warm, held by no call, and its gate would have agreed to a park. */
  predicate Spared(before: map<string, Sys>, slots: map<string, Sys>, id: string, now: int, fate: string -> ParkFate) {
    && id in slots && id in before && Warm(slots[id]) && Refs(slots[id]) <= 0 && Park(before[id], now, fate(id)).1
  }

  lemma IdleStopsCount(before: map<string, Sys>, idle: map<string, Sys>, stopped: set<string>,
                       fate: string -> ParkFate, now: int, ttl: int)
    requires AfterIdle(before, idle, stopped, fate, now, ttl)
    ensures |WarmIds(idle)| + |stopped| == |WarmIds(before)|
  {
    hide Park;
    assert stopped <= WarmIds(before);
    assert WarmIds(idle) == WarmIds(before) - stopped;
  }

  lemma EvictionsInIdleOrder(before: map<string, Sys>, idle: map<string, Sys>, slots: map<string, Sys>,
                             stopped: set<string>, evicted: seq<string>, tried: set<string>,
                             fate: string -> ParkFate, now: int, ttl: int, warmCap: nat, v: string, u: string)
    requires AfterIdle(before, idle, stopped, fate, now, ttl)
    requires Evicting(idle, slots, evicted, tried, now, fate, warmCap)
    requires OthersRefused(idle, slots, evicted, tried, stopped, now, fate)
    requires forall id :: id in evicted ==> id in tried && id !in stopped
    requires v in evicted && Spared(before, slots, u, now, fate)
    ensures LongerIdle(before, v, slots, u)
  {
    hide Park, WarmIds, Expired;
    assert WasEvicted(idle, slots, v, now, fate);
    assert u !in evicted && u !in stopped;
    assert u !in tried;
    assert LongerIdle(idle, v, slots, u);
  }

  lemma SettlesAfterEviction(before: map<string, Sys>, idle: map<string, Sys>, slots: map<string, Sys>,
                             stopped: set<string>, evicted: seq<string>, tried: set<string>,
                             fate: string -> ParkFate, now: int, ttl: int, warmCap: nat)
    requires AfterIdle(before, idle, stopped, fate, now, ttl)
    requires Evicting(idle, slots, evicted, tried, now, fate, warmCap)
    requires OthersRefused(idle, slots, evicted, tried, stopped, now, fate)
    requires forall id :: id in evicted ==> id in tried && id !in stopped
    requires |WarmIds(slots)| <= warmCap || forall id :: !Candidate(slots, tried, id)
    ensures ScanSettles(before, slots, stopped, evicted, fate, now, ttl, warmCap)
  {
    hide Park, Expired, WarmIds, LongerIdle;
    IdleStopsCount(before, idle, stopped, fate, now, ttl);
    forall v, u | v in evicted && Spared(before, slots, u, now, fate) ensures LongerIdle(before, v, slots, u) {
      EvictionsInIdleOrder(before, idle, slots, stopped, evicted, tried, fate, now, ttl, warmCap, v, u);
    }
    if |WarmIds(slots)| > warmCap {
      forall id | id in slots && Warm(slots[id])
        ensures slots[id] == before[id] && (Refs(slots[id]) > 0 || !Park(before[id], now, fate(id)).1)
      {
        assert !Candidate(slots, tried, id);
        assert id !in stopped && id !in evicted;
      }
    }
  }

  /** What the scan stops, read off the clock: a warm instance that no request holds, last used
      more than the TTL ago or never, whose gate agrees, is cold afterwards. */
  lemma IdleAreParked(before: map<string, Sys>, slots: map<string, Sys>, stopped: set<string>, evicted: seq<string>,
                      fate: string -> ParkFate, now: int, ttl: int, warmCap: int, id: string)
    requires ScanSettles(before, slots, stopped, evicted, fate, now, ttl, warmCap)
    requires id in before && Warm(before[id]) && Refs(before[id]) <= 0 && Park(before[id], now, fate(id)).1 && ttl > 0
    requires before[id].lastActivity.Some? ==> now - before[id].lastActivity.value > ttl
    ensures id in stopped && !Warm(slots[id])
  {
    hide Park, WarmIds, LongerIdle;
  }

  /** And nothing is stopped for idleness that was used within the TTL or is held. */
  lemma UsedAreKept(before: map<string, Sys>, slots: map<string, Sys>, stopped: set<string>, evicted: seq<string>,
                    fate: string -> ParkFate, now: int, ttl: int, warmCap: int, id: string)
    requires ScanSettles(before, slots, stopped, evicted, fate, now, ttl, warmCap) && id in stopped
    ensures id in before && Warm(before[id]) && Refs(before[id]) <= 0 && ttl > 0
    ensures before[id].lastActivity.Some? ==> now - before[id].lastActivity.value > ttl
  {
    hide Park, WarmIds, LongerIdle;
  }

  /** The idle order, read off the clocks. */
  lemma IdleOrderReads(before: map<string, Sys>, v: string, slots: map<string, Sys>, u: string)
    requires LongerIdle(before, v, slots, u)
    ensures slots[u].lastActivity.None? ==> before[v].lastActivity.None?
    ensures slots[u].lastActivity.Some? && before[v].lastActivity.Some? ==>
              before[v].lastActivity.value <= slots[u].lastActivity.value
  {
  }

  class Pool {
    /** Every instance id the daemon knows, with its state. */
    var slots: map<string, Sys>

    constructor (slots: map<string, Sys>)
      ensures this.slots == slots
    {
      this.slots := slots;
    }

    method ParkIfStillIdle(id: string, now: int, f: ParkFate) returns (ok: bool)
      requires id in slots
      modifies this
      ensures var (s, parked) := Park(old(slots)[id], now, f); slots == old(slots)[id := s] && ok == parked
    {
      var (s, parked) := Park(slots[id], now, f);
      slots := slots[id := s];
      ok := parked;
    }

    /** The loop over procs inside one LRU round, in whatever order the map yields. */
    method PickVictim(order: seq<string>, parked: set<string>) returns (warm: nat, victim: Option<string>)
      requires Enumerates(order, slots)
      ensures warm == |WarmIds(slots)|
      ensures victim.None? ==> forall id :: !Candidate(slots, parked, id)
      ensures victim.Some? ==> IsVictim(slots, parked, victim.value)
    {
      hide Best, LongerIdle, IsVictim, WarmIds, Enumerates;
      warm, victim := 0, None;
      BestOfNone(slots, parked, order);
      for i := 0 to |order|
        invariant warm == WarmCount(slots, order, i)
        invariant Best(slots, parked, order, i, victim)
      {
        var id := order[i];
        EnumeratesAt(order, slots, i);
        var s := slots[id];
        BestGoesOn(slots, parked, order, i, victim);
        if Warm(s) {
          warm := warm + 1;
          if id !in parked && Refs(s) <= 0 {
            if victim.None? || Older(s.lastActivity, slots[victim.value].lastActivity) {
              victim := Some(id);
            }
          }
        }
      }
      CountsWarmIds(slots, order);
      BestIsVictim(slots, parked, order, victim);
    }

    /**
     * The LRU rounds. Between rounds the rest of the daemon turns the pool into
     * env(round, pool): it may start, stop or touch anything, but it knows no new ids. When
     * the pass runs alone and stops succeed, it gets the pool under the cap as far as held
     * and refused instances allow, in idle order, and stops no more than the excess.
     */
    method EvictLeastRecentlyUsed(env: (nat, map<string, Sys>) -> map<string, Sys>,
                                  orderOf: map<string, Sys> -> seq<string>,
                                  fate: string -> ParkFate, already: set<string>, now: int, warmCap: nat)
      returns (evicted: seq<string>, ghost tried: set<string>)
      requires already <= slots.Keys
      requires forall k, m :: env(k, m).Keys == m.Keys
      requires forall m :: Enumerates(orderOf(m), m)
      modifies this
      ensures slots.Keys == old(slots).Keys && already <= tried <= slots.Keys
      ensures forall id :: id in evicted ==> id in tried && id !in already
      ensures RunsAlone(env, fate) ==> Evicting(old(slots), slots, evicted, tried, now, fate, warmCap)
      ensures RunsAlone(env, fate) ==>
                |WarmIds(slots)| <= warmCap || forall id :: !Candidate(slots, tried, id)
      ensures RunsAlone(env, fate) ==> OthersRefused(old(slots), slots, evicted, tried, already, now, fate)
    {
      evicted, tried := [], already;
      var parked := already;
      var round := 0;
      while true
        invariant slots.Keys == old(slots).Keys && already <= parked == tried <= slots.Keys
        invariant forall id :: id in evicted ==> id in tried && id !in already
        invariant RunsAlone(env, fate) ==> Evicting(old(slots), slots, evicted, tried, now, fate, warmCap)
        invariant RunsAlone(env, fate) ==> OthersRefused(old(slots), slots, evicted, tried, already, now, fate)
        decreases slots.Keys - parked
      {
        hide Park, Evicting, StopSucceeds, LongerIdle, Warm, Refs, OthersRefused;
        slots := env(round, slots);
        var warm, victim := PickVictim(orderOf(slots), parked);
        if victim.None? || warm <= warmCap {
          break;
        }
        var id := victim.value;
        ghost var was := slots;
        var ok := ParkIfStillIdle(id, now, fate(id));
        if RunsAlone(env, fate) {
          EvictRound(old(slots), was, evicted, tried, already, now, fate, warmCap, id, slots, ok);
        }
        parked, tried := parked + {id}, tried + {id};
        if ok {
          evicted := evicted + [id];
        }
        round := round + 1;
      }
    }

    /** The ids that sat idle past the TTL when the pass began. */
    method CollectExpired(order: seq<string>, now: int, ttl: int) returns (expired: seq<string>)
      requires Enumerates(order, slots)
      ensures forall id :: id in expired <==> id in slots && Expired(slots[id], now, ttl)
      ensures forall i, j :: 0 <= i < j < |expired| ==> expired[i] != expired[j]
    {
      expired := [];
      for i := 0 to |order|
        invariant forall id :: id in expired <==> id in order[..i] && Expired(slots[id], now, ttl)
        invariant forall i, j :: 0 <= i < j < |expired| ==> expired[i] != expired[j]
      {
        hide Expired;
        var id := order[i];
        assert order[..i + 1] == order[..i] + [id];
        if Expired(slots[id], now, ttl) {
          expired := expired + [id];
        }
      }
      assert order[..|order|] == order;
    }

    /** Stop what sat idle past the TTL; env is as in EvictLeastRecentlyUsed. */
    method StopIdle(order: seq<string>, env: (nat, map<string, Sys>) -> map<string, Sys>,
                    fate: string -> ParkFate, now: int, ttl: int)
      returns (stopped: set<string>, rounds: nat)
      requires Enumerates(order, slots)
      requires forall k, m :: env(k, m).Keys == m.Keys
      modifies this
      ensures slots.Keys == old(slots).Keys && stopped <= slots.Keys
      ensures RunsAlone(env, fate) ==> AfterIdle(old(slots), slots, stopped, fate, now, ttl)
    {
      hide Park, StoppingIdle, StopSucceeds, Enumerates, Expired, AfterIdle;
      stopped, rounds := {}, 0;
      assert StoppingIdle(slots, slots, [], {}, fate, now) by {
        IdleBegins(slots, fate, now);
      }
      var expired := CollectExpired(order, now, ttl);
      while rounds < |expired|
        invariant rounds <= |expired| && slots.Keys == old(slots).Keys && stopped <= slots.Keys
        invariant RunsAlone(env, fate) ==> StoppingIdle(old(slots), slots, expired[..rounds], stopped, fate, now)
      {
        slots := env(rounds, slots);
        var id := expired[rounds];
        ghost var was := slots;
        var ok := ParkIfStillIdle(id, now, fate(id));
        if RunsAlone(env, fate) {
          StopOneIdle(old(slots), was, expired[..rounds], stopped, fate, now, id, slots, ok);
          assert expired[..rounds + 1] == expired[..rounds] + [id];
        }
        if ok {
          stopped := stopped + {id};
        }
        rounds := rounds + 1;
      }
      assert expired[..rounds] == expired;
      if RunsAlone(env, fate) {
        IdleDone(old(slots), slots, expired, stopped, fate, now, ttl);
      }
    }

    /** One pass of the scan. */
    method ScanScaleToZero(env: (nat, map<string, Sys>) -> map<string, Sys>, orderOf: map<string, Sys> -> seq<string>,
                           fate: string -> ParkFate, now: int, ttl: int, warmCap: int)
      returns (stopped: set<string>, evicted: seq<string>)
      requires forall k, m :: env(k, m).Keys == m.Keys
      requires forall m :: Enumerates(orderOf(m), m)
      modifies this
      ensures slots.Keys == old(slots).Keys
      ensures forall id :: id in evicted ==> id !in stopped
      ensures RunsAlone(env, fate) ==> ScanSettles(old(slots), slots, stopped, evicted, fate, now, ttl, warmCap)
    {
      stopped, evicted := {}, [];
      if ttl <= 0 && warmCap <= 0 {
        return;
      }
      var rounds;
      stopped, rounds := StopIdle(orderOf(slots), env, fate, now, ttl);
      ghost var idle := slots;
      if warmCap > 0 {
        ghost var tried;
        evicted, tried := EvictLeastRecentlyUsed((k: nat, m: map<string, Sys>) => env(rounds + k, m), orderOf, fate, stopped, now, warmCap);
        if RunsAlone(env, fate) {
          assert RunsAlone((k: nat, m: map<string, Sys>) => env(rounds + k, m), fate);
          SettlesAfterEviction(old(slots), idle, slots, stopped, evicted, tried, fate, now, ttl, warmCap);
        }
      } else if RunsAlone(env, fate) {
        IdleStopsCount(old(slots), slots, stopped, fate, now, ttl);
      }
    }
  }
}
