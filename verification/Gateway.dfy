/**
 * Who drops the request ref a scale-to-zero call takes (internal/protocol/gateway.go and
 * grpc.go). The supervisor's release closure counts every call, so a ref is conserved only
 * if each path calls it exactly once.
 */
module Gateway {
  import opened Domain
  import Requests

  /** What a receive, or a send, on a stream comes to. */
  datatype Frame = Message | EndOfStream | Failure

  /** The release closures handed out so far, and how often each has been called. */
  class Warmer {
    var calls: seq<nat>
    var touches: nat

    constructor ()
      ensures calls == [] && touches == 0
    {
      calls, touches := [], 0;
    }

    method EnsureStarted(started: bool) returns (release: Option<nat>)
      modifies this`calls
      ensures release == if started then Some(|old(calls)|) else None
      ensures calls == if started then old(calls) + [0] else old(calls)
    {
      release := None;
      if started {
        release := Some(|calls|);
        calls := calls + [0];
      }
    }

    method Release(ref: nat)
      requires ref < |calls|
      modifies this`calls
      ensures calls == old(calls)[ref := old(calls)[ref] + 1]
    {
      calls := calls[ref := calls[ref] + 1];
    }

    method TouchInstance()
      modifies this`touches
      ensures touches == old(touches) + 1
    {
      touches := touches + 1;
    }
  }

  /** A backend stream that holds a ref; released is the once guard. */
  class WarmStream {
    const warmer: Warmer
    const ref: nat
    var released: bool

    ghost predicate Valid() reads this, warmer {
      ref < |warmer.calls| && warmer.calls[ref] == if released then 1 else 0
    }

    constructor (warmer: Warmer, ref: nat)
      requires ref < |warmer.calls| && warmer.calls[ref] == 0
      ensures Valid() && !released && this.warmer == warmer && this.ref == ref
    {
      this.warmer, this.ref, released := warmer, ref, false;
    }

    /** Once: the closure is called by the first release and by no other, as Requests.Moved
        has every call of the gateway drop its ref. */
    method Release()
      requires Valid()
      modifies this, warmer`calls
      ensures Valid() && released
      ensures warmer.calls == old(warmer.calls)[ref := 1]
      ensures var (hold, call) := Requests.OnceGuarded(Requests.Hold(ref, old(released)));
        hold == Requests.Hold(ref, released) && warmer.calls[ref] == old(warmer.calls[ref]) + if call then 1 else 0
    {
      if !released {
        released := true;
        warmer.Release(ref);
      }
    }

    /** RecvMsg and SendMsg alike: anything but a message drops the ref. */
    method Exchange(frame: Frame)
      requires Valid()
      modifies this, warmer
      ensures Valid() && released == (old(released) || frame != Message)
      ensures warmer.calls == old(warmer.calls)[ref := if released then 1 else 0]
      ensures warmer.touches == old(warmer.touches) + if frame == Message then 1 else 0
    {
      if frame != Message {
        Release();
        return;
      }
      warmer.TouchInstance();
    }
  }

  /** started: the warmer starts the instance; connected: the backend connection comes up. */
  datatype Opening = Opening(mode: RuntimeMode, hasWarmer: bool, started: bool, connected: bool)

  predicate TakesRef(o: Opening) {
    o.mode == ScaleToZero && o.hasWarmer && o.started
  }

  /** The closures after a call that is over: one more, called once, if a ref was taken. */
  function Settled(calls: seq<nat>, o: Opening): seq<nat> {
    if TakesRef(o) then calls + [1] else calls
  }

  method Warm(w: Warmer, o: Opening) returns (release: Option<nat>)
    requires o.mode == ScaleToZero
    modifies w`calls
    ensures release == if TakesRef(o) then Some(|old(w.calls)|) else None
    ensures w.calls == if TakesRef(o) then old(w.calls) + [0] else old(w.calls)
  {
    if !o.hasWarmer {
      return None;
    }
    release := w.EnsureStarted(o.started);
  }

  /** Unary: every mode, every outcome of the backend call. */
  method InvokeRaw(w: Warmer, o: Opening, unary: bool, backend: bool) returns (ok: bool)
    modifies w
    ensures w.calls == Settled(old(w.calls), o)
    ensures ok <==> backend && (o.mode == ScaleToZero ==> TakesRef(o)) && (o.mode == OnDemand ==> unary)
  {
    if o.mode == OnDemand {
      return unary && backend;
    }
    if o.mode == ScaleToZero {
      var release := Warm(w, o);
      if release.None? {
        return false;
      }
      ok := backend;
      w.Release(release.value);
      return;
    }
    return backend;
  }

  /** A stream, with a ref exactly when the instance scales to zero; a stream that does not
      open has already given its ref back. */
  method NewBackendStream(w: Warmer, o: Opening) returns (ok: bool, stream: WarmStream?)
    modifies w`calls
    ensures ok == (o.connected && o.mode != OnDemand && (o.mode == ScaleToZero ==> TakesRef(o)))
    ensures (stream != null) == (ok && o.mode == ScaleToZero)
    ensures stream != null ==> fresh(stream) && stream.warmer == w && stream.ref == |old(w.calls)| && !stream.released && stream.Valid()
    ensures w.calls == if stream != null then old(w.calls) + [0] else Settled(old(w.calls), o)
  {
    stream := null;
    if o.mode == OnDemand {
      return false, null;
    }
    if o.mode == ScaleToZero {
      var release := Warm(w, o);
      if release.None? {
        return false, null;
      }
      if !o.connected {
        w.Release(release.value);
        return false, null;
      }
      stream := new WarmStream(w, release.value);
      return true, stream;
    }
    return o.connected, null;
  }

  /** The proxy's hold on its stream: the ref it took is the last one handed out. */
  ghost predicate Holds(w: Warmer, before: seq<nat>, stream: WarmStream?)
    reads w, stream
  {
    if stream == null then w.calls == before
    else stream.warmer == w && stream.ref == |before| && stream.Valid() && w.calls == before + [if stream.released then 1 else 0]
  }

  method Exchange(stream: WarmStream?, frame: Frame, w: Warmer, ghost before: seq<nat>)
    requires Holds(w, before, stream)
    modifies stream, w
    ensures Holds(w, before, stream)
    ensures stream != null ==> stream.released == (old(stream.released) || frame != Message)
  {
    if stream != null {
      stream.Exchange(frame);
    }
  }

  /** The deferred release of every proxy. */
  method ReleaseStream(stream: WarmStream?, w: Warmer, ghost before: seq<nat>)
    requires Holds(w, before, stream)
    modifies stream, w
    ensures w.calls == if stream == null then before else before + [1]
    ensures Holds(w, before, stream)
  {
    if stream != null {
      stream.Release();
    }
  }

  /** What one round of a proxy loop meets: a receive on one side, then a send on the other. */
  datatype Round = Round(received: Frame, sent: Frame)

  /** One request, many responses; `rounds` is how the responses go, and then the backend fails. */
  method ProxyServerStream(w: Warmer, o: Opening, request: Frame, forwarded: Frame, closed: bool, rounds: seq<Round>)
    returns (ok: bool)
    modifies w
    ensures w.calls == if request == Message then Settled(old(w.calls), o) else old(w.calls)
  {
    if request != Message {
      return false;
    }
    ghost var before := w.calls;
    var connected, stream := NewBackendStream(w, o);
    if !connected {
      return false;
    }
    ok := PumpResponses(w, stream, forwarded, closed, rounds, before);
    ReleaseStream(stream, w, before);
  }

  method PumpResponses(w: Warmer, stream: WarmStream?, forwarded: Frame, closed: bool, rounds: seq<Round>, ghost before: seq<nat>)
    returns (ok: bool)
    requires Holds(w, before, stream) && (stream != null ==> !stream.released)
    modifies stream, w
    ensures Holds(w, before, stream)
    ensures stream != null && !stream.released ==> !ok
  {
    Exchange(stream, forwarded, w, before);
    if forwarded != Message || !closed {
      return false;
    }
    for i := 0 to |rounds|
      invariant Holds(w, before, stream) && (stream != null ==> !stream.released)
    {
      Exchange(stream, rounds[i].received, w, before);
      if rounds[i].received != Message {
        return rounds[i].received == EndOfStream;
      }
      if rounds[i].sent != Message {
        return false;
      }
    }
    Exchange(stream, Failure, w, before);
    return false;
  }

  /** Many requests, one response; `extra` is the read after it. */
  method ProxyClientStream(w: Warmer, o: Opening, rounds: seq<Round>, closed: bool, response: Round, extra: Frame) returns (ok: bool)
    modifies w
    ensures w.calls == Settled(old(w.calls), o)
  {
    ghost var before := w.calls;
    var connected, stream := NewBackendStream(w, o);
    if !connected {
      return false;
    }
    ok := PumpRequests(w, stream, rounds, closed, response, extra, before);
    ReleaseStream(stream, w, before);
  }

  method PumpRequests(w: Warmer, stream: WarmStream?, rounds: seq<Round>, closed: bool, response: Round, extra: Frame,
                      ghost before: seq<nat>)
    returns (ok: bool)
    requires Holds(w, before, stream) && (stream != null ==> !stream.released)
    modifies stream, w
    ensures Holds(w, before, stream)
  {
    var ended := false;
    for i := 0 to |rounds|
      invariant Holds(w, before, stream) && (stream != null ==> !stream.released)
    {
      if rounds[i].received == EndOfStream {
        ended := true;
        break;
      }
      if rounds[i].received == Failure {
        return false;
      }
      Exchange(stream, rounds[i].sent, w, before);
      if rounds[i].sent != Message {
        return false;
      }
    }
    if !ended || !closed {
      return false;
    }
    Exchange(stream, response.received, w, before);
    if response.received != Message || response.sent != Message {
      return false;
    }
    Exchange(stream, extra, w, before);
    return extra != Failure;
  }

  // ----- both directions at once -----------------------------------------------

  /** One move of one of the three: the two pumps, and the proxy that collects their errors.
      When the client's stream ends, `sent` is how closing the backend's side goes. */
  datatype Move = PumpUp(round: Round) | PumpDown(round: Round) | Collect

  datatype Pumps = Pumps(upDone: bool, downDone: bool, errors: seq<bool>, collected: nat, returned: bool)

  /**
   * A bidirectional proxy under any interleaving of its two pumps, which go on after the
   * proxy has returned. Whenever it has returned its ref has been dropped once, and no pump
   * drops it again.
   */
  method ProxyBidiStream(w: Warmer, o: Opening, moves: seq<Move>) returns (p: Pumps)
    modifies w
    ensures p.returned ==> w.calls == Settled(old(w.calls), o)
    ensures !p.returned ==> TakesRef(o) ==> w.calls == old(w.calls) + [0] || w.calls == old(w.calls) + [1]
    ensures !TakesRef(o) ==> w.calls == old(w.calls)
  {
    ghost var before := w.calls;
    var connected, stream := NewBackendStream(w, o);
    p := Pumps(false, false, [], 0, !connected);
    if !connected {
      return;
    }
    for i := 0 to |moves|
      invariant Holds(w, before, stream) && p.collected <= |p.errors|
      invariant p.returned && stream != null ==> stream.released
    {
      match moves[i] {
        case PumpUp(round) =>
          if !p.upDone {
            if round.received != Message {
              p := p.(upDone := true, errors := p.errors + [round.received == Failure || round.sent != Message]);
            } else {
              Exchange(stream, round.sent, w, before);
              if round.sent != Message {
                p := p.(upDone := true, errors := p.errors + [true]);
              }
            }
          }
        case PumpDown(round) =>
          if !p.downDone {
            Exchange(stream, round.received, w, before);
            if round.received != Message {
              p := p.(downDone := true, errors := p.errors + [round.received == Failure]);
            } else if round.sent != Message {
              p := p.(downDone := true, errors := p.errors + [true]);
            }
          }
        case Collect =>
          if !p.returned && p.collected < |p.errors| {
            p := p.(collected := p.collected + 1);
            if p.errors[p.collected - 1] || p.collected == 2 {
              ReleaseStream(stream, w, before);
              p := p.(returned := true);
            }
          }
      }
    }
  }
}
