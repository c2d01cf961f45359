/**
 The steps of the host one by one, in terms of the flags, the gate and the plants alone, and
 the attachment count over a whole run.
 */
module HostRules {
  import opened Basics
  import opened HostLifecycle

  // --- attachments -----------------------------------------------------------------------------

  /** Attaches that went through less detaches. */
  function Counted(n: int, s: State, a: Label): int {
    match a
    case Attach => n + 1
    case AttachOwned => if s.host.flags.closing || s.host.flags.failed then n else n + 1
    case DetachBy(_) => n - 1
    case _ => n
  }

  ghost function CountedAll(n: int, s: State, labels: seq<Label>): int
    requires Runnable(s, labels)
    decreases |labels|
  {
    if labels == [] then n else CountedAll(Counted(n, s, labels[0]), Step(s, labels[0]), labels[1..])
  }

  lemma {:induction false} StepCounts(s: State, a: Label)
    requires Enabled(s, a)
    ensures Step(s, a).host.attachments == Counted(s.host.attachments, s, a)
  {
  }

  lemma {:induction false} RunCounts(s: State, labels: seq<Label>)
    requires Runnable(s, labels)
    ensures Run(s, labels).host.attachments == CountedAll(s.host.attachments, s, labels)
    decreases |labels|
  {
    if labels != [] {
      StepCounts(s, labels[0]);
      RunCounts(Step(s, labels[0]), labels[1..]);
    }
  }

  lemma {:induction false} StepCloses(s: State, a: Label)
    requires Enabled(s, a)
    ensures Step(s, a).host.flags.closing <==>
            || s.host.flags.closing
            || (a.DetachBy? && s.host.attachments == 1 && s.host.life.lockHeld)
            || (a.Go? && s.threads[a.t] == Shutting(Enters) && !s.host.life.done)
  {
  }

  /**
   Told from the steps of a run: the attachments are the attaches that went through less the
   detaches, and the host starts to close exactly with the detach that leaves none while the
   credential lock is held, or with a shutdown that was called.
   */
  lemma {:induction false} ClosesExactlyWhen(connected: bool, locked: bool, labels: seq<Label>, a: Label)
    requires Runnable(Init(connected, locked), labels) && Enabled(Run(Init(connected, locked), labels), a)
    ensures var s := Run(Init(connected, locked), labels);
      var n, t := CountedAll(0, Init(connected, locked), labels), Step(s, a);
      && s.host.attachments == n
      && (t.host.flags.closing <==>
            || s.host.flags.closing
            || (a.DetachBy? && n == 1 && s.host.life.lockHeld)
            || (a.Go? && s.threads[a.t] == Shutting(Enters) && !s.host.life.done))
      && (a.DetachBy? && n == 1 && s.host.life.lockHeld ==> t.threads[a.t] == Shutting(Queues))
      && (a.DetachBy? && !(n == 1 && s.host.life.lockHeld) ==> t.threads[a.t] == Finished)
  {
    RunCounts(Init(connected, locked), labels);
    StepCloses(Run(Init(connected, locked), labels), a);
  }

  // --- the gate ----------------------------------------------------------------------------------

  /** Readers share the gate, and the last to leave frees it; connect, shutdown and pump hold it alone. */
  lemma {:induction false} GateTable(g: Gate, t: nat)
    ensures g.Read? && t in g.holders && g.holders != {t} ==> Unshare(g, t) == Read(g.holders - {t})
    ensures g.Read? && g.holders == {t} ==> Unshare(g, t) == Free
    ensures Readers(g) == if g.Read? then g.holders else {}
  {
  }

  /** Who waits for what: the exclusive gate, a gate nobody holds alone, the shutdown turn, the reset turn. */
  lemma {:induction false} WaitTable(s: State, t: nat, ok: bool)
    requires t in s.threads
    ensures var g, pc := s.host.venue.gate, s.threads[t];
      && (pc == Connecting(Waits) || pc == Shutting(Gates) ==> (Enabled(s, Go(t, ok)) <==> g == Free))
      && (pc == Asking(PlantWaits) || pc == Resetting(ResetWaits) || (pc.Using? && pc.u == UseWaits) ==>
            (Enabled(s, Go(t, ok)) <==> !g.Written?))
      && (pc == Shutting(Queues) ==> (Enabled(s, Go(t, ok)) <==> s.host.life.inShutdown == None))
      && (pc == Resetting(ResetTakes) ==> (Enabled(s, Go(t, ok)) <==> s.host.venue.resetter == None))
      && (pc == Finished ==> !Enabled(s, Go(t, ok)))
      && (pc.Connecting? && pc.c != Waits ==> Enabled(s, Go(t, ok)))
      && (pc.Asking? && pc.p != PlantWaits ==> Enabled(s, Go(t, ok)))
      && (pc.Shutting? && pc.d != Queues && pc.d != Gates ==> Enabled(s, Go(t, ok)))
      && (pc == Resetting(ResetConnects) || (pc.Using? && pc.u == UseCalls) ==> Enabled(s, Go(t, ok)))
  {
  }

  lemma {:induction false} CallTable(s: State, t: nat, job: Job, ok: bool)
    ensures Enabled(s, CallConnect(t)) <==> t !in s.threads
    ensures Enabled(s, CallPlants(t)) <==> t !in s.threads
    ensures Enabled(s, CallReset(t)) <==> t !in s.threads
    ensures Enabled(s, CallUse(t, job)) <==> t !in s.threads
    ensures Enabled(s, CallShutdown(t)) <==> t !in s.threads
    ensures Enabled(s, DetachBy(t)) <==> t !in s.threads && s.host.attachments > 0
    ensures Enabled(s, PumpTakesGate) <==> s.host.venue.pump == PumpServes && s.host.venue.gate == Free
    ensures Enabled(s, PumpEnds(ok)) <==> s.host.venue.pump == PumpRebuilds
    ensures Enabled(s, PumpFails) <==> s.host.venue.pump == PumpRebuilds
    ensures Enabled(s, RequestReconnect) && Enabled(s, Attach) && Enabled(s, AttachOwned)
  {
  }

  /** Where a call begins: a plant request of a closed or failed host, or an open call before ready, ends at once. */
  lemma {:induction false} BeginTable(s: State, t: nat, job: Job)
    requires t !in s.threads
    ensures Step(s, CallConnect(t)) == State(s.threads[t := Connecting(Checks)], s.host)
    ensures Step(s, CallReset(t)) == State(s.threads[t := Resetting(ResetWaits)], s.host)
    ensures Step(s, CallShutdown(t)) == State(s.threads[t := Shutting(Queues)], s.host)
    ensures var dead := s.host.flags.closing || s.host.flags.failed;
      Step(s, CallPlants(t)) == State(s.threads[t := if dead then Finished else Asking(PlantWaits)], s.host)
    ensures Step(s, CallUse(t, job))
         == State(s.threads[t := if job.Opens? && !s.host.flags.ready then Finished else Using(UseWaits, job)], s.host)
  {
  }

  // --- connect and plant requests --------------------------------------------------------------------

  /**
   A connect reaches the venue only when, under the gate, the host was neither closed nor failed nor
   recovering, its plants were granted and it was not ready yet; it stores ready only after the
   venue answered, and a refused one disconnects. It gives the gate back whenever it ends or waits.
   */
  lemma {:induction false} ConnectTable(h: Host, t: nat, ok: bool)
    ensures var dead := h.flags.closing || h.flags.failed;
      && GoConnect(h, t, Checks, ok) == Move(if dead then Finished else Connecting(Waits), h)
      && GoConnect(h, t, Waits, ok) == Move(Connecting(Rechecks), h.(venue := h.venue.(gate := Written(Thread(t)))))
      && (dead ==> GoConnect(h, t, Rechecks, ok) == Move(Finished, h.(venue := h.venue.(gate := Free))))
      && (!dead && h.flags.recovering ==>
            GoConnect(h, t, Rechecks, ok) == Move(Connecting(Checks), h.(venue := h.venue.(gate := Free))))
      && (!dead && !h.flags.recovering ==> GoConnect(h, t, Rechecks, ok) == Move(Connecting(Open), h))
    ensures ok && !h.flags.ready ==> GoConnect(h, t, Open, ok) == Move(Connecting(Calls), h)
    ensures !ok || h.flags.ready ==> GoConnect(h, t, Open, ok) == Move(Finished, h.(venue := h.venue.(gate := Free)))
    ensures GoConnect(h, t, Calls, true).pc == Connecting(Stores)
    ensures GoConnect(h, t, Calls, true).host
         == h.(venue := h.venue.(plants := h.venue.plants + {TickerPlant, HistoryPlant, PnlPlant}))
    ensures GoConnect(h, t, Calls, false) == Move(Finished, h.(venue := h.venue.(gate := Free, plants := {})))
    ensures GoConnect(h, t, Stores, ok)
         == Move(Finished, h.(venue := h.venue.(gate := Free), flags := h.flags.(ready := true)))
  {
  }

  /** A plant request is checked again under the gate, and adds plants only to a venue that is up. */
  lemma {:induction false} RequestTable(h: Host, t: nat, ok: bool)
    ensures GoPlants(h, t, PlantWaits, ok)
         == Move(Asking(PlantRechecks), h.(venue := h.venue.(gate := Read(Readers(h.venue.gate) + {t}))))
    ensures h.flags.closing || h.flags.failed ==>
              GoPlants(h, t, PlantRechecks, ok)
              == Move(Finished, h.(venue := h.venue.(gate := Unshare(h.venue.gate, t))))
    ensures !h.flags.closing && !h.flags.failed ==> GoPlants(h, t, PlantRechecks, ok) == Move(Asking(PlantCalls), h)
    ensures var m := GoPlants(h, t, PlantCalls, ok);
      && m.pc == Finished && m.host.venue.gate == Unshare(h.venue.gate, t) && m.host.flags == h.flags
      && m.host.venue.plants
         == (if ok && h.venue.plants != {} then h.venue.plants + {TickerPlant, HistoryPlant, PnlPlant}
             else h.venue.plants)
  {
  }

  /** A session opens a plant only beside a ticker, closes one whenever the venue does, and gives the gate back. */
  lemma {:induction false} UseTable(h: Host, t: nat, job: Job, ok: bool)
    ensures GoUse(h, t, UseWaits, job, ok)
         == Move(Using(UseCalls, job), h.(venue := h.venue.(gate := Read(Readers(h.venue.gate) + {t}))))
    ensures var m := GoUse(h, t, UseCalls, job, ok);
      && m.pc == Finished && m.host.venue.gate == Unshare(h.venue.gate, t)
      && m.host.venue.plants
         == (if !ok then h.venue.plants
             else if job.Closes? then h.venue.plants - {job.plant}
             else if TickerPlant in h.venue.plants then h.venue.plants + {job.plant} else h.venue.plants)
      && m.host == h.(venue := m.host.venue) && m.host.venue.disconnects == h.venue.disconnects
  {
  }

  /** A reset takes the ticker out and connects another; it asks nothing of the host and gives the gate back. */
  lemma {:induction false} ResetTable(h: Host, t: nat, ok: bool)
    ensures GoReset(h, t, ResetWaits, ok)
         == Move(Resetting(ResetTakes), h.(venue := h.venue.(gate := Read(Readers(h.venue.gate) + {t}))))
    ensures var taken := h.venue.(plants := h.venue.plants - {TickerPlant}, resetter := Some(t));
      GoReset(h, t, ResetTakes, true) == Move(Resetting(ResetConnects), h.(venue := taken))
    ensures GoReset(h, t, ResetTakes, false) == Move(Finished, h.(venue := h.venue.(gate := Unshare(h.venue.gate, t))))
    ensures var m := GoReset(h, t, ResetConnects, ok);
      && m.pc == Finished && m.host.venue.gate == Unshare(h.venue.gate, t) && m.host.venue.resetter == None
      && m.host.venue.plants == (if ok then h.venue.plants + {TickerPlant} else h.venue.plants)
      && m.host == h.(venue := m.host.venue)
  {
  }

  // --- shutdown and pump ---------------------------------------------------------------------------------

  /**
   Shutdown waits its turn, and ends there when it was done before; else it closes the host, stops
   the pump, clears ready, disconnects alone at the gate, gives up the lock and is done, in this order.
   */
  lemma {:induction false} ShutdownTable(h: Host, t: nat)
    ensures GoShutdown(h, t, Queues) == Move(Shutting(Enters), h.(life := h.life.(inShutdown := Some(t))))
    ensures h.life.done ==> GoShutdown(h, t, Enters) == Move(Finished, h.(life := h.life.(inShutdown := None)))
    ensures !h.life.done ==>
              var m := GoShutdown(h, t, Enters);
              m.pc == Shutting(Joins) && m.host.flags == h.flags.(closing := true) && m.host.venue == h.venue
    ensures var m := GoShutdown(h, t, Joins);
      && m.pc == Shutting(Unreadies) && m.host.venue.pump == PumpGone
      && m.host.flags == h.flags && m.host.life == h.life
      && m.host.venue.gate == (if h.venue.gate == Written(ThePump) then Free else h.venue.gate)
      && m.host.venue.plants == h.venue.plants
    ensures GoShutdown(h, t, Unreadies) == Move(Shutting(Gates), h.(flags := h.flags.(ready := false)))
    ensures GoShutdown(h, t, Gates) == Move(Shutting(Disconnects), h.(venue := h.venue.(gate := Written(Thread(t)))))
    ensures var m := GoShutdown(h, t, Disconnects);
      && m.pc == Shutting(Releases) && m.host.venue.plants == {} && m.host.venue.gate == Free
      && m.host.venue.disconnects == h.venue.disconnects + 1 && m.host.life == h.life && m.host.flags == h.flags
    ensures GoShutdown(h, t, Releases) == Move(Shutting(Finishes), h.(life := h.life.(lockHeld := false)))
    ensures GoShutdown(h, t, Finishes) == Move(Finished, h.(life := h.life.(done := true, inShutdown := None)))
  {
  }

  /**
   The pump rebuilds alone at the gate, not ready meanwhile; it ends ready with the plants up, or
   gives up for good.
   */
  lemma {:induction false} PumpTable(h: Host, ok: bool)
    ensures var k := Outside(h, PumpTakesGate);
      && k.venue.pump == PumpRebuilds && k.venue.gate == Written(ThePump) && k.venue.plants == h.venue.plants
      && k.flags == h.flags.(recovering := true, ready := false)
    ensures var k := Outside(h, PumpEnds(ok));
      && k.venue.pump == PumpServes && k.venue.gate == Free
      && k.venue.plants == (if ok then {TickerPlant, HistoryPlant, PnlPlant} else {})
      && k.flags == h.flags.(recovering := !ok, ready := ok)
    ensures var k := Outside(h, PumpFails);
      && k.venue.pump == PumpGone && k.venue.gate == Free && k.venue.plants == {}
      && k.flags == h.flags.(failed := true)
    ensures Outside(h, RequestReconnect) == h.(flags := h.flags.(recovering := true, ready := false))
  {
  }

  /** A host starts as it is handed over: with its plants and ready, or with neither. */
  lemma {:induction false} InitTable(connected: bool, locked: bool)
    ensures var h := Init(connected, locked).host;
      && h.venue.plants == (if connected then {TickerPlant, HistoryPlant, PnlPlant} else {})
      && h.flags == Flags(false, false, connected, false) && h.attachments == 0
      && h.venue.gate == Free && h.venue.pump == PumpServes && h.venue.resetter == None && h.venue.disconnects == 0
      && h.life == Life(None, false, locked, 0)
    ensures Init(connected, locked).threads == map[]
  {
  }
}
