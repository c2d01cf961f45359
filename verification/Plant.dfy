/**
 The order-plant lifecycle machine: the policy object, its transition table, and
 the language of event traces that lead to each state.
 */
module Plant {

  datatype State = Disconnected | Connecting | Live | Resyncing | Latched

  datatype Event =
    | BeginConnect
    | Disconnect
    | Latch
    | RearmAlive
    | RearmDead
    | ResyncStart
    | ResyncComplete
    | ResyncFailed

  /** The transition table, state by event. */
  function Next(s: State, e: Event): State {
    match (s, e)
    case (_, BeginConnect) => Connecting
    case (_, Disconnect) => Disconnected
    case (_, Latch) => Latched
    case (Connecting, RearmAlive) => Live
    case (Latched, RearmAlive) => Latched
    case (Latched, RearmDead) => Latched
    case (_, RearmAlive) => Disconnected
    case (_, RearmDead) => Disconnected
    case (Live, ResyncStart) => Resyncing
    case (Resyncing, ResyncStart) => Resyncing
    case (Disconnected, ResyncStart) => Disconnected
    case (_, ResyncStart) => Latched
    case (Resyncing, ResyncComplete) => Live
    case (_, ResyncComplete) => s
    case (Latched, ResyncFailed) => Latched
    case (_, ResyncFailed) => Disconnected
  }

  predicate AllowSubmit(s: State) { s == Live }
  predicate AllowModify(s: State) { s == Live }
  predicate AllowCancel(s: State) { s == Live || s == Resyncing }

  /** Owns the state; it moves only through the transition methods. */
  class Policy {
    var state: State

    constructor ()
      ensures state == Disconnected
    {
      state := Disconnected;
    }

    method DoBeginConnect()
      modifies this
      ensures state == Next(old(state), BeginConnect)
    {
      state := Connecting;
    }

    method DoDisconnect()
      modifies this
      ensures state == Next(old(state), Disconnect)
    {
      state := Disconnected;
    }

    method DoLatch()
      modifies this
      ensures state == Next(old(state), Latch)
    {
      state := Latched;
    }

    method DoResyncStart()
      modifies this
      ensures state == Next(old(state), ResyncStart)
    {
      if state == Latched || state == Disconnected {
        return;
      }
      state := if state == Connecting then Latched else Resyncing;
    }

    method DoResyncComplete()
      modifies this
      ensures state == Next(old(state), ResyncComplete)
    {
      if state == Resyncing {
        state := Live;
      }
    }

    method DoResyncFailed()
      modifies this
      ensures state == Next(old(state), ResyncFailed)
    {
      if state != Latched {
        state := Disconnected;
      }
    }

    method DoRearm(pollAlive: bool) returns (armed: bool)
      modifies this
      ensures state == Next(old(state), if pollAlive then RearmAlive else RearmDead)
      ensures armed <==> old(state) == Connecting && pollAlive
      ensures armed ==> state == Live
    {
      if state == Latched {
        return false;
      }
      if state == Connecting && pollAlive {
        state := Live;
        return true;
      }
      state := Disconnected;
      return false;
    }
  }

  // --- traces ------------------------------------------------------------------

  function Run(t: seq<Event>): State {
    if t == [] then Disconnected else Next(Run(t[..|t| - 1]), t[|t| - 1])
  }

  /** `begin_connect` at `i`, and only completed resyncs after it up to `j`. */
  ghost predicate BarrierSpan(t: seq<Event>, i: int, j: int) {
    0 <= i < j <= |t| && t[i] == BeginConnect && forall k :: i < k < j ==> t[k] == ResyncComplete
  }

  /** The trace ends inside a re-arm barrier nothing has disturbed. */
  ghost predicate EndsInBarrier(t: seq<Event>) {
    exists i :: BarrierSpan(t, i, |t|)
  }

  /** A live re-arm at `j` right at the end of a barrier, then only resync starts and completions. */
  ghost predicate ArmedSince(t: seq<Event>, j: int) {
    0 <= j < |t| && t[j] == RearmAlive && (exists i :: BarrierSpan(t, i, j))
    && forall k :: j < k < |t| ==> t[k] == ResyncStart || t[k] == ResyncComplete
  }

  ghost predicate EndsArmed(t: seq<Event>) {
    exists j :: ArmedSince(t, j)
  }

  /** A latch (or a resync that hit a barrier) at `i` with no new barrier or disconnect after it. */
  ghost predicate LatchedSince(t: seq<Event>, i: int) {
    0 <= i < |t| && (t[i] == Latch || (t[i] == ResyncStart && exists h :: BarrierSpan(t, h, i)))
    && forall k :: i < k < |t| ==> t[k] != BeginConnect && t[k] != Disconnect
  }

  ghost predicate EndsLatched(t: seq<Event>) {
    exists i :: LatchedSince(t, i)
  }

  lemma {:induction false} SpanOfPrefix(t: seq<Event>, e: Event, j: int)
    requires 0 <= j <= |t|
    ensures forall i :: BarrierSpan(t + [e], i, j) <==> BarrierSpan(t, i, j)
  {
    assert forall k :: 0 <= k < |t| ==> (t + [e])[k] == t[k];
  }

  lemma {:induction false} BarrierStep(t: seq<Event>, e: Event)
    ensures EndsInBarrier(t + [e]) <==> e == BeginConnect || (e == ResyncComplete && EndsInBarrier(t))
  {
    var u := t + [e];
    if e == BeginConnect {
      assert BarrierSpan(u, |t|, |u|);
    } else if e == ResyncComplete && EndsInBarrier(t) {
      var i :| BarrierSpan(t, i, |t|);
      assert BarrierSpan(u, i, |u|);
    } else if EndsInBarrier(u) {
      var i :| BarrierSpan(u, i, |u|);
      assert u[|t|] == e;
      SpanOfPrefix(t, e, |t|);
      assert BarrierSpan(u, i, |t|);
    }
  }

  lemma {:induction false} ArmedStep(t: seq<Event>, e: Event)
    ensures EndsArmed(t + [e])
       <==> (e == RearmAlive && EndsInBarrier(t)) || ((e == ResyncStart || e == ResyncComplete) && EndsArmed(t))
  {
    var u := t + [e];
    SpanOfPrefix(t, e, |t|);
    if e == RearmAlive && EndsInBarrier(t) {
      var i :| BarrierSpan(t, i, |t|);
      assert BarrierSpan(u, i, |t|);
      assert ArmedSince(u, |t|);
    } else if (e == ResyncStart || e == ResyncComplete) && EndsArmed(t) {
      var j :| ArmedSince(t, j);
      SpanOfPrefix(t, e, j);
      assert ArmedSince(u, j);
    } else if EndsArmed(u) {
      var j :| ArmedSince(u, j);
      SpanOfPrefix(t, e, j);
      assert u[|t|] == e;
      if j < |t| {
        assert forall k :: 0 <= k < |t| ==> t[k] == u[k];
        assert ArmedSince(t, j);
      }
    }
  }

  lemma {:induction false} LatchedStep(t: seq<Event>, e: Event)
    ensures EndsLatched(t + [e])
       <==> e == Latch || (e == ResyncStart && EndsInBarrier(t))
            || (e != BeginConnect && e != Disconnect && EndsLatched(t))
  {
    var u := t + [e];
    SpanOfPrefix(t, e, |t|);
    if e == Latch || (e == ResyncStart && EndsInBarrier(t)) {
      if e == ResyncStart {
        var i :| BarrierSpan(t, i, |t|);
        assert BarrierSpan(u, i, |t|);
      }
      assert LatchedSince(u, |t|);
    } else if e != BeginConnect && e != Disconnect && EndsLatched(t) {
      var i :| LatchedSince(t, i);
      SpanOfPrefix(t, e, i);
      assert LatchedSince(u, i);
    } else if EndsLatched(u) {
      var i :| LatchedSince(u, i);
      SpanOfPrefix(t, e, i);
      assert u[|t|] == e;
      if i < |t| {
        assert forall k :: 0 <= k < |t| ==> t[k] == u[k];
        assert LatchedSince(t, i);
      }
    }
  }

  /**
   The trace theorem: which state a trace from `Disconnected` ends in, told from the
   trace alone. The plant is armed exactly when the trace ends with a barrier, a live
   re-arm that closed it, and then only resync starts and completions; it is latched
   exactly when a latch (or a resync inside a barrier) has no later barrier or disconnect.
   An armed plant takes cancels, and submits and modifies too unless a resync was just started.
   */
  lemma {:induction false} TraceTheorem(t: seq<Event>)
    ensures Run(t) == Connecting <==> EndsInBarrier(t)
    ensures AllowCancel(Run(t)) <==> EndsArmed(t)
    ensures AllowSubmit(Run(t)) <==> EndsArmed(t) && t[|t| - 1] != ResyncStart
    ensures AllowModify(Run(t)) <==> EndsArmed(t) && t[|t| - 1] != ResyncStart
    ensures Run(t) == Resyncing <==> EndsArmed(t) && t[|t| - 1] == ResyncStart
    ensures Run(t) == Latched <==> EndsLatched(t)
    decreases |t|
  {
    if t != [] {
      var u, e := t[..|t| - 1], t[|t| - 1];
      assert t == u + [e];
      TraceTheorem(u);
      BarrierStep(u, e);
      ArmedStep(u, e);
      LatchedStep(u, e);
    }
  }

  /** No resync step, in any number, ever clears a latch or brings a dead plant back. */
  lemma {:induction false} ResyncNeverArms(s: State, t: seq<Event>)
    requires s == Latched || s == Disconnected
    requires forall k :: 0 <= k < |t| ==> t[k] == ResyncStart || t[k] == ResyncComplete || t[k] == ResyncFailed
    ensures RunFrom(s, t) == s
    decreases |t|
  {
    if t != [] { ResyncNeverArms(s, t[1..]); }
  }

  function RunFrom(s: State, t: seq<Event>): State
    decreases |t|
  {
    if t == [] then s else RunFrom(Next(s, t[0]), t[1..])
  }
}
