/**
 Host lifecycle: connects, plant requests, attaches, detaches, the event pump and
 shutdown as threads that interleave at every atomic access and lock operation.
 */
module HostLifecycle {
  import opened Basics

  /** Where a `connect` is; from `Rechecks` on it holds the venue gate exclusively. */
  datatype ConnectAt = Checks | Waits | Rechecks | Open | Calls | Stores

  /** Where a `request_plants` is; from `PlantRechecks` on it holds the gate shared. */
  datatype PlantsAt = PlantWaits | PlantRechecks | PlantCalls

  /**
   Where a legacy ticker reset is; it takes the gate shared and calls the venue unchecked. The call
   takes the old ticker out, alone among resets, and then connects a new one.
   */
  datatype ResetAt = ResetWaits | ResetTakes | ResetConnects

  datatype PlantKind = TickerPlant | HistoryPlant | PnlPlant | OrderPlant

  /** The plants a session opens and closes one by one. */
  type SidePlant = p: PlantKind | p.PnlPlant? || p.OrderPlant? witness PnlPlant

  /** A session's call that opens or closes one plant, with the gate held shared. */
  datatype Job = Opens(plant: SidePlant) | Closes(plant: SidePlant)

  /** Where such a call is. */
  datatype UseAt = UseWaits | UseCalls

  /** Where a `shutdown` is; from `Enters` on it holds the shutdown gate. */
  datatype ShutdownAt = Queues | Enters | Joins | Unreadies | Gates | Disconnects | Releases | Finishes

  datatype Pc =
    | Connecting(c: ConnectAt)
    | Asking(p: PlantsAt)
    | Resetting(r: ResetAt)
    | Using(u: UseAt, job: Job)
    | Shutting(d: ShutdownAt)
    | Finished

  datatype Holder = Thread(id: nat) | ThePump

  datatype Pump = PumpServes | PumpRebuilds | PumpGone

  /** The venue gate, a readers-writer lock. */
  datatype Gate = Free | Written(holder: Holder) | Read(holders: set<nat>)

  /**
   The venue side: the plants that are up, and the reset that is between taking the ticker out
   and connecting. `disconnects` counts the disconnects shutdown has run.
   */
  datatype Venue = Venue(gate: Gate, plants: set<PlantKind>, resetter: Option<nat>, pump: Pump, disconnects: nat)

  /** What a connect brings up. */
  const CONNECTED: set<PlantKind> := {TickerPlant, HistoryPlant, PnlPlant}

  predicate Up(s: State) { s.host.venue.plants != {} }

  datatype Flags = Flags(closing: bool, failed: bool, ready: bool, recovering: bool)

  /** Shutdown's own state. `bodies` counts how often its body was entered. */
  datatype Life = Life(inShutdown: Option<nat>, done: bool, lockHeld: bool, bodies: nat)

  datatype Host = Host(venue: Venue, flags: Flags, life: Life, attachments: nat)

  datatype State = State(threads: map<nat, Pc>, host: Host)

  /** What one action of a thread does: where the thread goes, and the host after it. */
  datatype Move = Move(pc: Pc, host: Host)

  datatype Label =
    | CallConnect(t: nat)
    | CallPlants(t: nat)
    | CallReset(t: nat)
    | CallUse(t: nat, job: Job)
    | CallShutdown(t: nat)
    | Go(t: nat, ok: bool)      // the thread's next atomic action; `ok` is the venue's answer
    | PumpTakesGate
    | PumpEnds(ok: bool)
    | PumpFails
    | RequestReconnect
    | Attach
    | AttachOwned
    | DetachBy(t: nat)

  function Init(connected: bool, locked: bool): State {
    var venue := Venue(Free, if connected then CONNECTED else {}, None, PumpServes, 0);
    State(map[], Host(venue, Flags(false, false, connected, false), Life(None, false, locked, 0), 0))
  }

  predicate Terminal(f: Flags) { f.closing || f.failed }

  function Readers(g: Gate): set<nat> { if g.Read? then g.holders else {} }

  function Unshare(g: Gate, t: nat): Gate { if Readers(g) - {t} == {} then Free else Read(Readers(g) - {t}) }

  /** Whether a thread at `pc` can take its next action. */
  predicate Ready(h: Host, pc: Pc) {
    match pc
    case Connecting(c) => c.Waits? ==> h.venue.gate.Free?
    case Asking(p) => p.PlantWaits? ==> !h.venue.gate.Written?
    case Resetting(r) => (r.ResetWaits? ==> !h.venue.gate.Written?) && (r.ResetTakes? ==> h.venue.resetter.None?)
    case Using(u, _) => u.UseWaits? ==> !h.venue.gate.Written?
    case Shutting(d) => (d.Queues? ==> h.life.inShutdown.None?) && (d.Gates? ==> h.venue.gate.Free?)
    case Finished => false
  }

  predicate Enabled(s: State, a: Label) {
    match a
    case CallConnect(t) => t !in s.threads
    case CallPlants(t) => t !in s.threads
    case CallReset(t) => t !in s.threads
    case CallUse(t, _) => t !in s.threads
    case CallShutdown(t) => t !in s.threads
    case Go(t, _) => t in s.threads && Ready(s.host, s.threads[t])
    case PumpTakesGate => s.host.venue.pump.PumpServes? && s.host.venue.gate.Free?
    case PumpEnds(_) => s.host.venue.pump.PumpRebuilds?
    case PumpFails => s.host.venue.pump.PumpRebuilds?
    case DetachBy(t) => t !in s.threads && s.host.attachments > 0
    case _ => true
  }

  function SetGate(h: Host, g: Gate): Host { h.(venue := h.venue.(gate := g)) }

  /** `connect`. */
  function GoConnect(h: Host, t: nat, c: ConnectAt, ok: bool): Move {
    match c
    case Checks => Move(if Terminal(h.flags) then Finished else Connecting(Waits), h)
    case Waits => Move(Connecting(Rechecks), SetGate(h, Written(Thread(t))))
    case Rechecks =>
      if Terminal(h.flags) then Move(Finished, SetGate(h, Free))
      else if h.flags.recovering then Move(Connecting(Checks), SetGate(h, Free))
      else Move(Connecting(Open), h)
    case Open => if !ok || h.flags.ready then Move(Finished, SetGate(h, Free)) else Move(Connecting(Calls), h)
    case Calls =>
      if ok then Move(Connecting(Stores), h.(venue := h.venue.(plants := h.venue.plants + CONNECTED)))
      else Move(Finished, h.(venue := h.venue.(gate := Free, plants := {})))
    case Stores => Move(Finished, SetGate(h, Free).(flags := h.flags.(ready := true)))
  }

  /** `request_plants`; it adds plants to a venue that is up, and connects nothing when it is down. */
  function GoPlants(h: Host, t: nat, p: PlantsAt, ok: bool): Move {
    match p
    case PlantWaits => Move(Asking(PlantRechecks), SetGate(h, Read(Readers(h.venue.gate) + {t})))
    case PlantRechecks =>
      if Terminal(h.flags) then Move(Finished, SetGate(h, Unshare(h.venue.gate, t))) else Move(Asking(PlantCalls), h)
    case PlantCalls =>
      var plants := if ok && h.venue.plants != {} then h.venue.plants + CONNECTED else h.venue.plants;
      Move(Finished, h.(venue := h.venue.(gate := Unshare(h.venue.gate, t), plants := plants)))
  }

  /**
   `reset_ticker_plant`: no check, before or under the gate. The old ticker is taken out first, so a
   refused reset leaves the ticker down; a new one comes up even when nothing else is.
   */
  function GoReset(h: Host, t: nat, r: ResetAt, ok: bool): Move {
    var v := h.venue;
    match r
    case ResetWaits => Move(Resetting(ResetTakes), SetGate(h, Read(Readers(v.gate) + {t})))
    case ResetTakes =>
      if ok then Move(Resetting(ResetConnects),
          h.(venue := v.(plants := v.plants - {TickerPlant}, resetter := Some(t))))
      else Move(Finished, SetGate(h, Unshare(v.gate, t)))
    case ResetConnects =>
      var plants := if ok then v.plants + {TickerPlant} else v.plants;
      Move(Finished, h.(venue := v.(gate := Unshare(v.gate, t), plants := plants, resetter := None)))
  }

  /** A session's plant call: a plant opens only beside a ticker. */
  function Used(plants: set<PlantKind>, job: Job, ok: bool): set<PlantKind> {
    match job
    case Opens(p) => if ok && TickerPlant in plants then plants + {p} else plants
    case Closes(p) => if ok then plants - {p} else plants
  }

  function GoUse(h: Host, t: nat, u: UseAt, job: Job, ok: bool): Move {
    var v := h.venue;
    match u
    case UseWaits => Move(Using(UseCalls, job), SetGate(h, Read(Readers(v.gate) + {t})))
    case UseCalls => Move(Finished, h.(venue := v.(gate := Unshare(v.gate, t), plants := Used(v.plants, job, ok))))
  }

  /** `shutdown`. */
  function GoShutdown(h: Host, t: nat, d: ShutdownAt): Move {
    match d
    case Queues => Move(Shutting(Enters), h.(life := h.life.(inShutdown := Some(t))))
    case Enters =>
      if h.life.done then Move(Finished, h.(life := h.life.(inShutdown := None)))
      else Move(Shutting(Joins), h.(flags := h.flags.(closing := true), life := h.life.(bodies := h.life.bodies + 1)))
    case Joins =>
      var gate := if h.venue.gate == Written(ThePump) then Free else h.venue.gate;
      Move(Shutting(Unreadies), h.(venue := h.venue.(pump := PumpGone, gate := gate)))
    case Unreadies => Move(Shutting(Gates), h.(flags := h.flags.(ready := false)))
    case Gates => Move(Shutting(Disconnects), SetGate(h, Written(Thread(t))))
    case Disconnects =>
      Move(Shutting(Releases),
          h.(venue := h.venue.(gate := Free, plants := {}, disconnects := h.venue.disconnects + 1)))
    case Releases => Move(Shutting(Finishes), h.(life := h.life.(lockHeld := false)))
    case Finishes => Move(Finished, h.(life := h.life.(done := true, inShutdown := None)))
  }

  function Act(h: Host, t: nat, pc: Pc, ok: bool): Move {
    match pc
    case Connecting(c) => GoConnect(h, t, c, ok)
    case Asking(p) => GoPlants(h, t, p, ok)
    case Resetting(r) => GoReset(h, t, r, ok)
    case Using(u, job) => GoUse(h, t, u, job, ok)
    case Shutting(d) => GoShutdown(h, t, d)
    case Finished => Move(Finished, h)
  }

  /** The last detach of a locked host closes it and goes on to shut it down. */
  function Detaching(h: Host): Move {
    var left := h.(attachments := if h.attachments > 0 then h.attachments - 1 else 0);
    if h.attachments == 1 && h.life.lockHeld then Move(Shutting(Queues), left.(flags := h.flags.(closing := true)))
    else Move(Finished, left)
  }

  /** Steps no caller thread takes. */
  function Outside(h: Host, a: Label): Host {
    var v, f := h.venue, h.flags;
    match a
    case PumpTakesGate =>
      h.(venue := v.(pump := PumpRebuilds, gate := Written(ThePump)), flags := f.(recovering := true, ready := false))
    case PumpEnds(ok) =>
      h.(venue := v.(pump := PumpServes, gate := Free, plants := if ok then CONNECTED else {}),
         flags := f.(recovering := !ok, ready := ok))
    case PumpFails => h.(venue := v.(pump := PumpGone, gate := Free, plants := {}), flags := f.(failed := true))
    case RequestReconnect => h.(flags := f.(recovering := true, ready := false))
    case Attach => h.(attachments := h.attachments + 1)
    case AttachOwned => if Terminal(f) then h else h.(attachments := h.attachments + 1)
    case _ => h
  }

  function Apply(s: State, t: nat, m: Move): State {
    State(s.threads[t := m.pc], m.host)
  }

  function Step(s: State, a: Label): State
    requires Enabled(s, a)
  {
    match a
    case CallConnect(t) => Apply(s, t, Move(Connecting(Checks), s.host))
    case CallPlants(t) => Apply(s, t, Move(if Terminal(s.host.flags) then Finished else Asking(PlantWaits), s.host))
    case CallReset(t) => Apply(s, t, Move(Resetting(ResetWaits), s.host))
    case CallUse(t, job) =>
      Apply(s, t, Move(if job.Opens? && !s.host.flags.ready then Finished else Using(UseWaits, job), s.host))
    case CallShutdown(t) => Apply(s, t, Move(Shutting(Queues), s.host))
    case Go(t, ok) => Apply(s, t, Act(s.host, t, s.threads[t], ok))
    case DetachBy(t) => Apply(s, t, Detaching(s.host))
    case _ => s.(host := Outside(s.host, a))
  }

  // --- what every interleaving keeps ----------------------------------------------------------

  /** Past the gated check, so free to bring the venue up. A ticker reset has no such check. */
  predicate MayConnect(pc: Pc) {
    (pc.Connecting? && (pc.c.Open? || pc.c.Calls? || pc.c.Stores?)) || (pc.Asking? && pc.p.PlantCalls?)
  }

  predicate HoldsGate(pc: Pc) {
    (pc.Connecting? && !pc.c.Checks? && !pc.c.Waits?) || (pc.Shutting? && pc.d.Disconnects?)
  }

  predicate HoldsShared(pc: Pc) {
    (pc.Asking? && !pc.p.PlantWaits?) || (pc.Resetting? && !pc.r.ResetWaits?) || (pc.Using? && pc.u.UseCalls?)
  }

  predicate InBody(d: ShutdownAt) { !d.Queues? && !d.Enters? }

  predicate PumpJoined(d: ShutdownAt) { InBody(d) && !d.Joins? }

  predicate HasDisconnected(d: ShutdownAt) { d.Releases? || d.Finishes? }

  /** The gate is held by the threads that think they hold it. */
  predicate GateLocal(g: Gate, t: nat, pc: Pc) {
    && (HoldsGate(pc) ==> g == Written(Thread(t)))
    && (HoldsShared(pc) ==> g.Read? && t in g.holders)
  }

  /** One thread at a time is inside shutdown, and what it has done shows in the host. */
  predicate ShutdownLocal(h: Host, t: nat, pc: Pc) {
    && (h.life.inShutdown == Some(t) <==> pc.Shutting? && !pc.d.Queues?)
    && (h.life.inShutdown == Some(t) ==>
          && (InBody(pc.d) ==> !h.life.done && h.flags.closing)
          && (PumpJoined(pc.d) ==> h.venue.pump.PumpGone?)
          && h.life.bodies == (if h.life.done || InBody(pc.d) then 1 else 0)
          && h.venue.disconnects == (if h.life.done || HasDisconnected(pc.d) then 1 else 0))
  }

  /** After shutdown's disconnect nobody is past a gated check. */
  predicate DownLocal(h: Host, pc: Pc) {
    h.venue.disconnects > 0 ==> !MayConnect(pc)
  }

  /** One reset at a time is between taking the ticker out and connecting. */
  predicate ResetLocal(v: Venue, t: nat, pc: Pc) {
    v.resetter == Some(t) <==> pc == Resetting(ResetConnects)
  }

  predicate Local(h: Host, t: nat, pc: Pc) {
    GateLocal(h.venue.gate, t, pc) && ShutdownLocal(h, t, pc) && DownLocal(h, pc) && ResetLocal(h.venue, t, pc)
  }

  predicate HostOk(h: Host) {
    && (h.venue.pump.PumpRebuilds? ==> h.venue.gate == Written(ThePump))
    && (h.life.inShutdown.None? ==> h.life.bodies == h.venue.disconnects == (if h.life.done then 1 else 0))
    && (h.venue.disconnects > 0 ==> h.flags.closing && h.venue.pump.PumpGone?)
    && (h.life.done ==> h.venue.disconnects > 0)
  }

  ghost predicate Inv(s: State) {
    && HostOk(s.host)
    && (s.host.life.inShutdown.Some? ==> s.host.life.inShutdown.value in s.threads)
    && (s.host.venue.resetter.Some? ==> s.host.venue.resetter.value in s.threads)
    && (forall t :: t in s.threads ==> Local(s.host, t, s.threads[t]))
  }

  lemma {:induction false} InitHolds(connected: bool, locked: bool)
    ensures Inv(Init(connected, locked))
  {
  }

  /**
   An action of `t` disturbs no other thread: the gate changes hands only through `t` or the
   pump, the place inside shutdown only through `t`, and a disconnect only under the gate.
   */
  predicate Undisturbed(h: Host, k: Host, t: nat) {
    var g, n := h.venue.gate, k.venue.gate;
    && (n == g || g == Written(Thread(t)) || g.Free? || g == Written(ThePump)
        || (g.Read? && (g.holders - {t} == {} || (n.Read? && g.holders - {t} <= n.holders))))
    && (k.life.inShutdown == h.life.inShutdown
        || (h.life.inShutdown == Some(t) && k.life.inShutdown.None?)
        || (h.life.inShutdown.None? && k.life.inShutdown == Some(t)))
    && (h.life.inShutdown != Some(t) ==>
          k.life.done == h.life.done && k.life.bodies == h.life.bodies && k.venue.disconnects == h.venue.disconnects)
    && (h.flags.closing ==> k.flags.closing) && (h.venue.pump.PumpGone? ==> k.venue.pump.PumpGone?)
    && (k.venue.disconnects == h.venue.disconnects || g == Written(Thread(t)))
    && (k.venue.resetter == h.venue.resetter
        || (h.venue.resetter == Some(t) && k.venue.resetter.None?)
        || (h.venue.resetter.None? && k.venue.resetter == Some(t)))
  }

  lemma {:induction false} OthersKeep(h: Host, k: Host, t: nat, x: nat, pc: Pc)
    requires x != t && Local(h, x, pc) && Undisturbed(h, k, t)
    ensures Local(k, x, pc)
  {
    if h.venue.gate.Read? && x in h.venue.gate.holders {
      assert x in h.venue.gate.holders - {t};
    }
  }

  lemma {:induction false} ConnectMoves(h: Host, t: nat, c: ConnectAt, ok: bool)
    requires HostOk(h) && Local(h, t, Connecting(c)) && Ready(h, Connecting(c))
    ensures var m := GoConnect(h, t, c, ok); Undisturbed(h, m.host, t) && HostOk(m.host) && Local(m.host, t, m.pc)
  {
  }

  lemma {:induction false} PlantsMoves(h: Host, t: nat, p: PlantsAt, ok: bool)
    requires HostOk(h) && Local(h, t, Asking(p)) && Ready(h, Asking(p))
    ensures var m := GoPlants(h, t, p, ok); Undisturbed(h, m.host, t) && HostOk(m.host) && Local(m.host, t, m.pc)
  {
  }

  lemma {:induction false} ResetMoves(h: Host, t: nat, r: ResetAt, ok: bool)
    requires HostOk(h) && Local(h, t, Resetting(r)) && Ready(h, Resetting(r))
    ensures var m := GoReset(h, t, r, ok); Undisturbed(h, m.host, t) && HostOk(m.host) && Local(m.host, t, m.pc)
  {
  }

  lemma {:induction false} UseMoves(h: Host, t: nat, u: UseAt, job: Job, ok: bool)
    requires HostOk(h) && Local(h, t, Using(u, job)) && Ready(h, Using(u, job))
    ensures var m := GoUse(h, t, u, job, ok); Undisturbed(h, m.host, t) && HostOk(m.host) && Local(m.host, t, m.pc)
  {
  }

  lemma {:induction false} ShutdownMoves(h: Host, t: nat, d: ShutdownAt)
    requires HostOk(h) && Local(h, t, Shutting(d)) && Ready(h, Shutting(d))
    ensures var m := GoShutdown(h, t, d); Undisturbed(h, m.host, t) && HostOk(m.host) && Local(m.host, t, m.pc)
  {
  }

  lemma {:induction false} CallMoves(h: Host, t: nat)
    requires HostOk(h) && h.life.inShutdown != Some(t) && h.venue.resetter != Some(t)
    ensures Local(h, t, Connecting(Checks)) && Local(h, t, Asking(PlantWaits)) && Local(h, t, Resetting(ResetWaits))
    ensures Local(h, t, Shutting(Queues)) && Local(h, t, Finished) && forall job :: Local(h, t, Using(UseWaits, job))
    ensures var m := Detaching(h); Undisturbed(h, m.host, t) && HostOk(m.host) && Local(m.host, t, m.pc)
  {
  }

  lemma {:induction false} OutsideKeeps(s: State, a: Label, x: nat, pc: Pc)
    requires Enabled(s, a) && HostOk(s.host) && Local(s.host, x, pc)
    ensures HostOk(Outside(s.host, a)) && Local(Outside(s.host, a), x, pc)
  {
  }

  lemma {:induction false} OutsideHolds(s: State, a: Label)
    requires Enabled(s, a) && HostOk(s.host)
    ensures HostOk(Outside(s.host, a)) && Outside(s.host, a).life == s.host.life
    ensures Outside(s.host, a).venue.resetter == s.host.venue.resetter
  {
  }

  lemma {:induction false} ApplyHolds(s: State, t: nat, m: Move)
    requires Inv(s) && Undisturbed(s.host, m.host, t) && HostOk(m.host) && Local(m.host, t, m.pc)
    ensures Inv(Apply(s, t, m))
  {
    var u := Apply(s, t, m);
    forall x | x in u.threads ensures Local(u.host, x, u.threads[x]) {
      if x != t { OthersKeep(s.host, m.host, t, x, s.threads[x]); }
    }
  }

  lemma {:induction false} GoHolds(s: State, t: nat, ok: bool)
    requires Inv(s) && Enabled(s, Go(t, ok))
    ensures Inv(Step(s, Go(t, ok)))
  {
    match s.threads[t]
    case Connecting(c) => ConnectMoves(s.host, t, c, ok); ApplyHolds(s, t, GoConnect(s.host, t, c, ok));
    case Asking(p) => PlantsMoves(s.host, t, p, ok); ApplyHolds(s, t, GoPlants(s.host, t, p, ok));
    case Resetting(r) => ResetMoves(s.host, t, r, ok); ApplyHolds(s, t, GoReset(s.host, t, r, ok));
    case Using(u, job) => UseMoves(s.host, t, u, job, ok); ApplyHolds(s, t, GoUse(s.host, t, u, job, ok));
    case Shutting(d) => ShutdownMoves(s.host, t, d); ApplyHolds(s, t, GoShutdown(s.host, t, d));
  }

  lemma {:induction false} StepHolds(s: State, a: Label)
    requires Inv(s) && Enabled(s, a)
    ensures Inv(Step(s, a))
  {
    match a
    case CallConnect(t) => CallMoves(s.host, t); ApplyHolds(s, t, Move(Connecting(Checks), s.host));
    case CallPlants(t) =>
      CallMoves(s.host, t);
      ApplyHolds(s, t, Move(if Terminal(s.host.flags) then Finished else Asking(PlantWaits), s.host));
    case CallReset(t) => CallMoves(s.host, t); ApplyHolds(s, t, Move(Resetting(ResetWaits), s.host));
    case CallUse(t, job) =>
      CallMoves(s.host, t);
      ApplyHolds(s, t, Move(if job.Opens? && !s.host.flags.ready then Finished else Using(UseWaits, job), s.host));
    case CallShutdown(t) => CallMoves(s.host, t); ApplyHolds(s, t, Move(Shutting(Queues), s.host));
    case Go(t, ok) => GoHolds(s, t, ok);
    case DetachBy(t) => CallMoves(s.host, t); ApplyHolds(s, t, Detaching(s.host));
    case _ =>
      OutsideHolds(s, a);
      forall x | x in s.threads ensures Local(Outside(s.host, a), x, s.threads[x]) {
        OutsideKeeps(s, a, x, s.threads[x]);
      }
  }

  // --- runs -------------------------------------------------------------------------------------

  ghost predicate Runnable(s: State, labels: seq<Label>)
    decreases |labels|
  {
    labels == [] || (Enabled(s, labels[0]) && Runnable(Step(s, labels[0]), labels[1..]))
  }

  function Run(s: State, labels: seq<Label>): State
    requires Runnable(s, labels)
    decreases |labels|
  {
    if labels == [] then s else Run(Step(s, labels[0]), labels[1..])
  }

  /** What only ever goes one way: the flags, the counts, and the credential lock. */
  ghost predicate Later(h: Host, k: Host) {
    && (h.flags.closing ==> k.flags.closing) && (h.flags.failed ==> k.flags.failed)
    && (h.life.done ==> k.life.done)
    && h.venue.disconnects <= k.venue.disconnects && h.life.bodies <= k.life.bodies
    && (h.life.lockHeld && !k.life.lockHeld ==> k.venue.disconnects > 0)
    && (!h.life.lockHeld ==> !k.life.lockHeld)
  }

  lemma {:induction false} ActIsLater(h: Host, t: nat, pc: Pc, ok: bool)
    requires Local(h, t, pc)
    ensures Later(h, Act(h, t, pc, ok).host)
  {
  }

  lemma {:induction false} StepIsLater(s: State, a: Label)
    requires Inv(s) && Enabled(s, a)
    ensures Later(s.host, Step(s, a).host)
  {
    if a.Go? {
      ActIsLater(s.host, a.t, s.threads[a.t], a.ok);
    }
  }

  lemma {:induction false} RunHolds(s: State, labels: seq<Label>)
    requires Inv(s) && Runnable(s, labels)
    ensures Inv(Run(s, labels)) && Later(s.host, Run(s, labels).host)
    decreases |labels|
  {
    if labels != [] {
      StepHolds(s, labels[0]);
      StepIsLater(s, labels[0]);
      RunHolds(Step(s, labels[0]), labels[1..]);
    }
  }

  /** What one step does to the plants that resets and sessions have left open. */
  function LeftOpen(open: set<PlantKind>, s: State, a: Label): set<PlantKind> {
    if !a.Go? || a.t !in s.threads then open
    else match s.threads[a.t]
      case Resetting(ResetTakes) => if a.ok then open - {TickerPlant} else open
      case Resetting(ResetConnects) => if a.ok then open + {TickerPlant} else open
      case Using(UseCalls, job) => Used(open, job, a.ok)
      case _ => open
  }

  /** Read off the reset and plant calls of a run alone. */
  ghost function AllLeftOpen(open: set<PlantKind>, s: State, labels: seq<Label>): set<PlantKind>
    requires Runnable(s, labels)
    decreases |labels|
  {
    if labels == [] then open else AllLeftOpen(LeftOpen(open, s, labels[0]), Step(s, labels[0]), labels[1..])
  }

  /** Once shutdown has disconnected, only resets and sessions' plant calls move the plants. */
  lemma {:induction false} StepPlants(s: State, a: Label)
    requires Inv(s) && Enabled(s, a) && s.host.venue.disconnects > 0
    ensures Step(s, a).host.venue.plants == LeftOpen(s.host.venue.plants, s, a)
  {
    if a.Go? {
      assert Local(s.host, a.t, s.threads[a.t]);
      CountsAreOne(s);
    }
  }

  lemma {:induction false} RunPlants(s: State, labels: seq<Label>)
    requires Inv(s) && Runnable(s, labels) && s.host.venue.disconnects > 0
    ensures Run(s, labels).host.venue.plants == AllLeftOpen(s.host.venue.plants, s, labels)
    decreases |labels|
  {
    if labels != [] {
      StepPlants(s, labels[0]);
      StepHolds(s, labels[0]);
      StepIsLater(s, labels[0]);
      RunPlants(Step(s, labels[0]), labels[1..]);
    }
  }

  /** The last call of a ticker reset ended with a new ticker; `was` when there was no call. */
  ghost predicate LastAnswered(s: State, labels: seq<Label>, was: bool)
    requires Runnable(s, labels)
    decreases |labels|
  {
    if labels == [] then was
    else
      var a := labels[0];
      var resets := a.Go? && a.ok && a.t in s.threads && s.threads[a.t].Resetting?;
      LastAnswered(Step(s, a), labels[1..],
                   if resets && s.threads[a.t].r.ResetConnects? then true
                   else if resets && s.threads[a.t].r.ResetTakes? then false
                   else was)
  }

  lemma {:induction false} TickerLeftOpen(open: set<PlantKind>, s: State, labels: seq<Label>)
    requires Runnable(s, labels)
    ensures TickerPlant in AllLeftOpen(open, s, labels) <==> LastAnswered(s, labels, TickerPlant in open)
    decreases |labels|
  {
    if labels != [] {
      TickerLeftOpen(LeftOpen(open, s, labels[0]), Step(s, labels[0]), labels[1..]);
    }
  }

  /** Some reset since has ended with a new ticker. */
  ghost predicate SomeAnswered(s: State, labels: seq<Label>)
    requires Runnable(s, labels)
    decreases |labels|
  {
    labels != [] && (Answers(s, labels[0]) || SomeAnswered(Step(s, labels[0]), labels[1..]))
  }

  predicate Answers(s: State, a: Label) {
    a.Go? && a.ok && a.t in s.threads && s.threads[a.t] == Resetting(ResetConnects)
  }

  ghost predicate SessionCalls(s: State, labels: seq<Label>)
    requires Runnable(s, labels)
    decreases |labels|
  {
    labels != [] && (OpensPlant(s, labels[0]) || SessionCalls(Step(s, labels[0]), labels[1..]))
  }

  predicate OpensPlant(s: State, a: Label) {
    a.Go? && a.ok && a.t in s.threads && s.threads[a.t].Using? && s.threads[a.t].u.UseCalls?
        && s.threads[a.t].job.Opens?
  }

  /** Nothing is open without an answered reset, and nothing but the ticker without a session's plant call. */
  lemma {:induction false} OpenNeedsReset(open: set<PlantKind>, s: State, labels: seq<Label>)
    requires Runnable(s, labels)
    ensures open == {} && AllLeftOpen(open, s, labels) != {} ==> SomeAnswered(s, labels)
    ensures open <= {TickerPlant} && !SessionCalls(s, labels) ==> AllLeftOpen(open, s, labels) <= {TickerPlant}
    ensures HistoryPlant !in open ==> HistoryPlant !in AllLeftOpen(open, s, labels)
    decreases |labels|
  {
    if labels != [] {
      OpenNeedsReset(LeftOpen(open, s, labels[0]), Step(s, labels[0]), labels[1..]);
    }
  }

  /**
   Under every interleaving: the body of shutdown runs at most once and its disconnect with it,
   a host that started with the credential lock gives it up only after that disconnect, and after
   the disconnect the pump is gone and no connect or plant request can bring the venue up.
   */
  lemma {:induction false} ShutdownTheorem(connected: bool, locked: bool, labels: seq<Label>)
    requires Runnable(Init(connected, locked), labels)
    ensures var u := Run(Init(connected, locked), labels);
      && u.host.life.bodies <= 1 && u.host.venue.disconnects <= 1
      && (locked && !u.host.life.lockHeld ==> u.host.venue.disconnects == 1)
      && (u.host.venue.disconnects > 0 ==>
            u.host.venue.pump.PumpGone? && forall t :: t in u.threads ==> !MayConnect(u.threads[t]))
  {
    InitHolds(connected, locked);
    RunHolds(Init(connected, locked), labels);
    CountsAreOne(Run(Init(connected, locked), labels));
  }

  /**
   "The venue never connects again" fails, and exactly here. At any point of any run after
   shutdown's disconnect the plants that are up are those the ticker resets and the sessions'
   plant calls since then have left open: the ticker if and only if the last reset since then was
   answered, another plant only if one was, and none of them before.
   */
  lemma {:induction false} UpAgainExactlyWhen(connected: bool, locked: bool, before: seq<Label>, t: nat,
      after: seq<Label>)
    requires Runnable(Init(connected, locked), before)
    requires var s := Run(Init(connected, locked), before);
      t in s.threads && s.threads[t] == Shutting(Disconnects) && Runnable(Step(s, Go(t, true)), after)
    ensures var d := Step(Run(Init(connected, locked), before), Go(t, true));
      var u := Run(d, after);
      && d.host.venue.disconnects == 1 && !Up(d)
      && u.host.venue.plants == AllLeftOpen({}, d, after)
      && (TickerPlant in u.host.venue.plants <==> LastAnswered(d, after, false))
      && (Up(u) ==> SomeAnswered(d, after))
      && (!SessionCalls(d, after) ==> (Up(u) <==> LastAnswered(d, after, false)))
  {
    InitHolds(connected, locked);
    RunHolds(Init(connected, locked), before);
    var s := Run(Init(connected, locked), before);
    StepHolds(s, Go(t, true));
    assert Local(s.host, t, s.threads[t]);
    var d := Step(s, Go(t, true));
    RunPlants(d, after);
    TickerLeftOpen({}, d, after);
    OpenNeedsReset({}, d, after);
  }

  lemma {:induction false} Prepend(s: State, a: Label, rest: seq<Label>)
    requires Enabled(s, a) && Runnable(Step(s, a), rest)
    ensures Runnable(s, [a] + rest) && Run(s, [a] + rest) == Run(Step(s, a), rest)
  {
    assert ([a] + rest)[1..] == rest;
  }

  /** A step that is run on its own. */
  lemma {:induction false} Alone(s: State, a: Label)
    requires Enabled(s, a)
    ensures Runnable(s, [a]) && Run(s, [a]) == Step(s, a)
  {
    assert [a][1..] == [];
    assert Run(Step(s, a), []) == Step(s, a);
  }

  /** A reset that has the gate and its turn takes the ticker out and leaves it as the venue answers. */
  lemma {:induction false} ResetRuns(s: State, t: nat, ok: bool) returns (labels: seq<Label>)
    requires t in s.threads && s.threads[t] == Resetting(ResetTakes) && s.host.venue.resetter.None?
    ensures Runnable(s, labels)
    ensures var u := Run(s, labels);
      && u.host.venue.plants
          == (if ok then s.host.venue.plants + {TickerPlant} else s.host.venue.plants - {TickerPlant})
      && u.host.venue.disconnects == s.host.venue.disconnects && u.host.life == s.host.life
  {
    var s1 := Step(s, Go(t, true));
    Alone(s1, Go(t, ok));
    Prepend(s, Go(t, true), [Go(t, ok)]);
    labels := [Go(t, true)] + [Go(t, ok)];
  }

  lemma {:induction false} ResetCalled(s: State, t: nat, ok: bool) returns (labels: seq<Label>)
    requires !s.host.venue.gate.Written? && t !in s.threads && s.host.venue.resetter.None?
    ensures Runnable(s, labels)
    ensures var u := Run(s, labels);
      && u.host.venue.plants
          == (if ok then s.host.venue.plants + {TickerPlant} else s.host.venue.plants - {TickerPlant})
      && u.host.venue.disconnects == s.host.venue.disconnects && u.host.life == s.host.life
  {
    var s1 := Step(s, CallReset(t));
    var s2 := Step(s1, Go(t, true));
    var rest := ResetRuns(s2, t, ok);
    Prepend(s1, Go(t, true), rest);
    Prepend(s, CallReset(t), [Go(t, true)] + rest);
    labels := [CallReset(t)] + ([Go(t, true)] + rest);
  }

  /**
   At any reachable state, after a disconnect too, unless the gate is held exclusively, a reset can bring the
   venue up.
   */
  lemma {:induction false} ResetRevives(s: State, t: nat) returns (labels: seq<Label>)
    requires Inv(s) && !s.host.venue.gate.Written? && t !in s.threads
    ensures Runnable(s, labels)
    ensures var u := Run(s, labels);
      Up(u) && u.host.venue.disconnects == s.host.venue.disconnects && u.host.life == s.host.life
  {
    if s.host.venue.resetter.Some? {
      var x := s.host.venue.resetter.value;
      assert Local(s.host, x, s.threads[x]);
      Alone(s, Go(x, true));
      labels := [Go(x, true)];
    } else {
      labels := ResetCalled(s, t, true);
    }
  }

  /** And a refused one takes down a venue of which only the ticker is up. */
  lemma {:induction false} RefusedResetDrops(s: State, t: nat) returns (labels: seq<Label>)
    requires !s.host.venue.gate.Written? && t !in s.threads && s.host.venue.resetter.None?
    requires s.host.venue.plants == {TickerPlant}
    ensures Runnable(s, labels) && !Up(Run(s, labels))
  {
    labels := ResetCalled(s, t, false);
  }

  /** How many steps a shutdown has left. */
  function Left(d: ShutdownAt): nat {
    match d
    case Queues => 8
    case Enters => 7
    case Joins => 6
    case Unreadies => 5
    case Gates => 4
    case Disconnects => 3
    case Releases => 2
    case Finishes => 1
  }

  /** The one thread of the host is inside shutdown at `d`. */
  predicate ShutsAlone(s: State, t: nat, d: ShutdownAt) {
    && s.threads == map[t := Shutting(d)]
    && s.host.venue.gate == (if d.Disconnects? then Written(Thread(t)) else Free)
    && !s.host.life.done && (d.Queues? ==> s.host.life.inShutdown.None?)
    && s.host.venue.disconnects == (if HasDisconnected(d) then 1 else 0)
    && (d.Finishes? ==> !s.host.life.lockHeld) && s.host.venue.resetter.None?
  }

  lemma {:induction false} ShutsDown(s: State, t: nat, d: ShutdownAt) returns (labels: seq<Label>)
    requires ShutsAlone(s, t, d)
    ensures Runnable(s, labels)
    ensures var u := Run(s, labels);
      && u.threads == map[t := Finished] && u.host.venue.gate.Free? && u.host.venue.resetter.None?
      && u.host.venue.disconnects == 1 && u.host.life.done && !u.host.life.lockHeld
    decreases Left(d)
  {
    var a := Go(t, true);
    var u := Step(s, a);
    assert s.threads[t := u.threads[t]] == map[t := u.threads[t]];
    if d.Finishes? {
      labels := [a] + [];
      Prepend(s, a, []);
    } else {
      var rest := ShutsDown(u, t, u.threads[t].d);
      labels := [a] + rest;
      Prepend(s, a, rest);
    }
  }

  lemma {:induction false} ExtendRun(s: State, before: seq<Label>, after: seq<Label>)
    requires Runnable(s, before) && Runnable(Run(s, before), after)
    ensures Runnable(s, before + after) && Run(s, before + after) == Run(Run(s, before), after)
    decreases |before|
  {
    if before == [] {
      assert before + after == after;
    } else {
      ExtendRun(Step(s, before[0]), before[1..], after);
      assert (before + after)[1..] == before[1..] + after;
    }
  }

  /** The input: a shutdown that runs to its end, then a peer's reset, leave the venue up without the lock. */
  lemma {:induction false} VenueComesBack() returns (labels: seq<Label>)
    ensures Runnable(Init(true, true), labels)
    ensures var u := Run(Init(true, true), labels);
      Up(u) && u.host.venue.disconnects == 1 && u.host.life.done && !u.host.life.lockHeld
  {
    var s := Step(Init(true, true), CallShutdown(0));
    assert s.threads == map[0 := Shutting(Queues)];
    var down := ShutsDown(s, 0, Queues);
    Prepend(Init(true, true), CallShutdown(0), down);
    var up := ResetCalled(Run(s, down), 1, true);
    ExtendRun(Init(true, true), [CallShutdown(0)] + down, up);
    labels := [CallShutdown(0)] + down + up;
  }

  lemma {:induction false} CountsAreOne(s: State)
    requires Inv(s)
    ensures s.host.life.bodies <= 1 && s.host.venue.disconnects <= 1
  {
    if s.host.life.inShutdown.Some? {
      var t := s.host.life.inShutdown.value;
      assert Local(s.host, t, s.threads[t]);
    }
  }

  /** After a detach closed the host, an owned attach never succeeds again. */
  lemma {:induction false} NoOwnedAttachAfterClosing(s: State, t: nat, labels: seq<Label>)
    requires Inv(s) && Enabled(s, DetachBy(t)) && s.host.attachments == 1 && s.host.life.lockHeld
    requires Runnable(Step(s, DetachBy(t)), labels)
    ensures var u := Run(Step(s, DetachBy(t)), labels); Step(u, AttachOwned) == u
  {
    StepHolds(s, DetachBy(t));
    RunHolds(Step(s, DetachBy(t)), labels);
  }

  // --- the `ready` flag ---------------------------------------------------------------------------

  /** Nobody can still store `ready`: the host closes, the pump is gone, and no connect is past its check. */
  ghost predicate ReadyIsSettled(s: State) {
    && s.host.flags.closing && s.host.venue.pump.PumpGone? && !s.host.flags.ready
    && (forall t :: t in s.threads ==> !PastCheck(s.threads[t]))
  }

  predicate PastCheck(pc: Pc) { pc.Connecting? && (pc.c.Open? || pc.c.Calls? || pc.c.Stores?) }

  lemma {:induction false} SettledAct(h: Host, t: nat, pc: Pc, ok: bool)
    requires h.flags.closing && h.venue.pump.PumpGone? && !h.flags.ready && !PastCheck(pc)
    ensures var m := Act(h, t, pc, ok);
      m.host.flags.closing && m.host.venue.pump.PumpGone? && !m.host.flags.ready && !PastCheck(m.pc)
  {
  }

  lemma {:induction false} SettledStays(s: State, labels: seq<Label>)
    requires ReadyIsSettled(s) && Runnable(s, labels)
    ensures ReadyIsSettled(Run(s, labels))
    decreases |labels|
  {
    if labels != [] {
      var a := labels[0];
      if a.Go? { SettledAct(s.host, a.t, s.threads[a.t], a.ok); }
      SettledStays(Step(s, a), labels[1..]);
    }
  }

  /** A run from `s` in which shutdown stores `ready = false` next and `ready` is true later on. */
  ghost predicate ReadyComesBack(s: State, t: nat, labels: seq<Label>) {
    && Runnable(s, labels) && labels != [] && labels[0].Go? && labels[0].t == t
    && Run(s, labels).host.flags.ready && Run(s, labels).host.flags.closing
  }

  /**
   "Not ready after shutdown" fails, and exactly here: at the moment shutdown is about to store
   `ready = false`, the flag can become true again later if and only if some connect is past its
   gated check at that moment.
   */
  lemma {:induction false} ReadyComesBackExactlyWhen(s: State, t: nat)
    requires Inv(s) && t in s.threads && s.threads[t] == Shutting(Unreadies)
    ensures (exists labels :: ReadyComesBack(s, t, labels)) <==> (exists x :: x in s.threads && PastCheck(s.threads[x]))
  {
    var cleared := GoShutdown(s.host, t, Unreadies);
    assert Local(s.host, t, s.threads[t]);
    if exists x :: x in s.threads && PastCheck(s.threads[x]) {
      var x :| x in s.threads && PastCheck(s.threads[x]);
      var u := Step(s, Go(t, true));
      var labels := StoreReady(u, x);
      var all := [Go(t, true)] + labels;
      assert all[1..] == labels;
      assert ReadyComesBack(s, t, all);
    } else {
      forall labels | ReadyComesBack(s, t, labels) ensures false {
        assert ReadyIsSettled(Step(s, labels[0]));
        SettledStays(Step(s, labels[0]), labels[1..]);
      }
    }
  }

  /** A connect past its check can go on to store `ready`. */
  lemma {:induction false} StoreReady(s: State, x: nat) returns (labels: seq<Label>)
    requires x in s.threads && PastCheck(s.threads[x]) && !s.host.flags.ready && s.host.flags.closing
    ensures Runnable(s, labels) && Run(s, labels).host.flags.ready && Run(s, labels).host.flags.closing
    decreases if s.threads[x].c.Open? then 2 else if s.threads[x].c.Calls? then 1 else 0
  {
    var u := Step(s, Go(x, true));
    if s.threads[x].c.Stores? {
      labels := [Go(x, true)];
      assert labels[1..] == [];
      assert Run(u, []) == u;
    } else {
      var rest := StoreReady(u, x);
      labels := [Go(x, true)] + rest;
      assert labels[1..] == rest;
    }
  }

  /** The input: from the start, a connect is past its check when shutdown is about to clear `ready`. */
  lemma {:induction false} ReadyCanComeBack() returns (labels: seq<Label>)
    ensures Runnable(Init(false, true), labels)
    ensures var s := Run(Init(false, true), labels);
      && 1 in s.threads && s.threads[1] == Shutting(Unreadies)
      && 0 in s.threads && PastCheck(s.threads[0])
      && exists more :: ReadyComesBack(s, 1, more)
  {
    var opens := ConnectOpens();
    var s := Run(Init(false, true), opens);
    var closes := ShutdownEnters(s);
    ExtendRun(Init(false, true), opens, closes);
    labels := opens + closes;
    InitHolds(false, true);
    RunHolds(Init(false, true), labels);
    ReadyComesBackExactlyWhen(Run(s, closes), 1);
  }

  lemma {:induction false} ConnectOpens() returns (labels: seq<Label>)
    ensures Runnable(Init(false, true), labels)
    ensures var s := Run(Init(false, true), labels);
      s.threads == map[0 := Connecting(Open)] && s.host.life.inShutdown.None? && !s.host.life.done
  {
    var s0 := Init(false, true);
    var s1 := Step(s0, CallConnect(0));
    var s2 := Step(s1, Go(0, true));
    var s3 := Step(s2, Go(0, true));
    var s4 := Step(s3, Go(0, true));
    assert s1.threads == map[0 := Connecting(Checks)] && s2.threads == map[0 := Connecting(Waits)];
    assert s3.threads == map[0 := Connecting(Rechecks)] && s4.threads == map[0 := Connecting(Open)];
    assert Runnable(s4, []) && Run(s4, []) == s4;
    Prepend(s3, Go(0, true), []);
    Prepend(s2, Go(0, true), [Go(0, true)] + []);
    Prepend(s1, Go(0, true), [Go(0, true)] + ([Go(0, true)] + []));
    Prepend(s0, CallConnect(0), [Go(0, true)] + ([Go(0, true)] + ([Go(0, true)] + [])));
    labels := [CallConnect(0)] + ([Go(0, true)] + ([Go(0, true)] + ([Go(0, true)] + [])));
  }

  lemma {:induction false} ShutdownEnters(s: State) returns (labels: seq<Label>)
    requires s.threads == map[0 := Connecting(Open)] && s.host.life.inShutdown.None? && !s.host.life.done
    ensures Runnable(s, labels)
    ensures Run(s, labels).threads == map[0 := Connecting(Open), 1 := Shutting(Unreadies)]
  {
    var s1 := Step(s, CallShutdown(1));
    var s2 := Step(s1, Go(1, true));
    var s3 := Step(s2, Go(1, true));
    var s4 := Step(s3, Go(1, true));
    assert s1.threads == map[0 := Connecting(Open), 1 := Shutting(Queues)];
    assert s2.threads == map[0 := Connecting(Open), 1 := Shutting(Enters)];
    assert s3.threads == map[0 := Connecting(Open), 1 := Shutting(Joins)];
    assert s4.threads == map[0 := Connecting(Open), 1 := Shutting(Unreadies)];
    assert Runnable(s4, []) && Run(s4, []) == s4;
    Prepend(s3, Go(1, true), []);
    Prepend(s2, Go(1, true), [Go(1, true)] + []);
    Prepend(s1, Go(1, true), [Go(1, true)] + ([Go(1, true)] + []));
    Prepend(s, CallShutdown(1), [Go(1, true)] + ([Go(1, true)] + ([Go(1, true)] + [])));
    labels := [CallShutdown(1)] + ([Go(1, true)] + ([Go(1, true)] + ([Go(1, true)] + [])));
  }
}
