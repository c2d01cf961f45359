/**
 Order-plant readiness: the order poller, its gap recovery, the transport restore,
 the (re)connect barrier and the PnL epoch gate as one machine whose steps run
 between await points. `now` counts steps, so a time names a step of the run.
 */
module Readiness {
  import opened Basics
  import Plant

  // --- one batch of order events ----------------------------------------------------

  /** What happens to one event of a batch. */
  datatype Row =
    | GapRow          // the stream dropped events
    | Unreadable      // the event could not be converted
    | Handled
    | Anomalous       // the handler latched the plant and went on
    | Failing         // the handler raised

  datatype BatchEnd = BatchEnd(plant: Plant.State, lost: nat, stopped: bool)

  function ProcessBatch(plant: Plant.State, rows: seq<Row>): BatchEnd
    decreases |rows|
  {
    if rows == [] then BatchEnd(plant, 0, false)
    else match rows[0]
      case GapRow => OneLost(ProcessBatch(plant, rows[1..]))
      case Unreadable => OneLost(ProcessBatch(plant, rows[1..]))
      case Handled => ProcessBatch(plant, rows[1..])
      case Anomalous => ProcessBatch(Plant.Next(plant, Plant.Latch), rows[1..])
      case Failing => BatchEnd(Plant.Next(plant, Plant.Latch), 0, true)
  }

  function OneLost(e: BatchEnd): BatchEnd {
    e.(lost := e.lost + 1)
  }

  /** Some event of the batch never reached local state. */
  predicate Lossy(rows: seq<Row>) {
    exists i :: 0 <= i < |rows| && (rows[i].GapRow? || rows[i].Unreadable? || rows[i].Failing?)
  }

  /** A batch that is taken to its end without loss is a batch without loss. */
  lemma {:induction false} LossIsNoticed(plant: Plant.State, rows: seq<Row>)
    ensures var e := ProcessBatch(plant, rows);
      && (Lossy(rows) <==> e.stopped || e.lost > 0)
      && (e.stopped ==> e.plant == Plant.Latched)
      && (!e.stopped ==> e.plant == plant || e.plant == Plant.Latched)
    decreases |rows|
  {
    if rows != [] {
      var rest := rows[1..];
      LossIsNoticed(plant, rest);
      LossIsNoticed(Plant.Next(plant, Plant.Latch), rest);
      if Lossy(rest) {
        var i :| 0 <= i < |rest| && (rest[i].GapRow? || rest[i].Unreadable? || rest[i].Failing?);
        assert rows[i + 1] == rest[i];
      }
      assert forall i :: 1 <= i < |rows| ==> rows[i] == rest[i - 1];
    }
  }

  /** The batch loop of `poll_iteration`. */
  method HandleBatch(plant: Plant.Policy, rows: seq<Row>) returns (lost: nat, stopped: bool)
    modifies plant
    ensures var e := ProcessBatch(old(plant.state), rows);
      plant.state == e.plant && stopped == e.stopped && (!stopped ==> lost == e.lost)
  {
    lost := 0;
    for i := 0 to |rows|
      invariant var e, rest := ProcessBatch(old(plant.state), rows), ProcessBatch(plant.state, rows[i..]);
        e.plant == rest.plant && e.stopped == rest.stopped && (!e.stopped ==> e.lost == lost + rest.lost)
    {
      assert rows[i..][1..] == rows[i + 1..];
      match rows[i] {
        case GapRow => lost := lost + 1;
        case Unreadable => lost := lost + 1;
        case Handled =>
        case Anomalous => plant.DoLatch();
        case Failing =>
          plant.DoLatch();
          return lost, true;
      }
    }
    return lost, false;
  }

  // --- the machine ---------------------------------------------------------------------

  const MAX_TRANSIENT := 5

  /** Where the order poller waits. */
  datatype Poller = Stopped | Polling | Pausing | Resubscribing | Recovering | RetryPause

  /** Who runs a re-arm barrier: the poller's gap recovery, the bridge, or a (re)connect. */
  datatype Owner = GapRecovery | Restore | Reconnect

  datatype Phase = Subscribing | Draining | AwaitingPnl(woken: bool) | Seeding

  /**
   A barrier in progress: when it called `begin_connect`, when its working-orders
   drain was issued, the PnL epoch it started in, whether there was a PnL stream when
   the drain ended, and the epoch of the poll whose row opened its gate.
   */
  datatype Barrier = Barrier(phase: Phase, beganAt: nat, drainAt: nat, epoch: nat, gated: bool, row: Option<nat>)

  /** The order poll task: where it waits, which task it is, its run of transient errors. */
  datatype Poll = Poll(poller: Poller, id: nat, streak: nat)

  /** The PnL side: its epoch, the re-arm gate, the epoch of the poll in flight, whether there is a stream. */
  datatype PnlSide = PnlSide(epoch: nat, observed: bool, poll: Option<nat>, connected: bool)

  /** When the last lossy batch was taken, and by which poll task. */
  datatype Loss = Loss(at: nat, seenBy: nat)

  datatype State = State(
    now: nat, plant: Plant.State, poll: Poll, barriers: map<Owner, Barrier>, pnl: PnlSide, loss: Loss,
    armed: Option<Barrier>)

  datatype Label =
    | PollBatch(rows: seq<Row>)
    | PollTransient
    | PollTerminal
    | PollReconnectable
    | PollChannelError
    | ResyncEnds(ok: bool)
    | PauseEnds
    | BeginBarrier(owner: Owner)
    | SubscribeEnds(owner: Owner, ok: bool)
    | DrainEnds(owner: Owner, ok: bool)
    | GateEnds(owner: Owner, ok: bool)
    | SeedEnds(owner: Owner, ok: bool)
    | Cancel(owner: Owner)
    | CancelPoller
    | PnlPollBegins
    | PnlRow
    | PnlReset
    | PnlConnects(up: bool)
    | LatchNow
    | PlantDown

  function Init(pnlConnected: bool): State {
    State(1, Plant.Disconnected, Poll(Stopped, 0, 0), map[], PnlSide(0, false, None, pnlConnected), Loss(0, 0), None)
  }

  predicate Enabled(s: State, a: Label) {
    match a
    case PollBatch(_) => s.poll.poller == Polling
    case PollTransient => s.poll.poller == Polling
    case PollTerminal => s.poll.poller == Polling
    case PollReconnectable => s.poll.poller == Polling
    case PollChannelError => s.poll.poller == Polling
    case ResyncEnds(_) => s.poll.poller == Resubscribing
    case PauseEnds => s.poll.poller == Pausing || s.poll.poller == RetryPause
    case BeginBarrier(o) => o != GapRecovery && o !in s.barriers
    case SubscribeEnds(o, _) => o != GapRecovery && o in s.barriers && s.barriers[o].phase.Subscribing?
    case DrainEnds(o, _) => o in s.barriers && s.barriers[o].phase.Draining?
    case GateEnds(o, ok) => o in s.barriers && s.barriers[o].phase.AwaitingPnl? && (ok ==> s.barriers[o].phase.woken)
    case SeedEnds(o, _) => o in s.barriers && s.barriers[o].phase.Seeding?
    case Cancel(o) => o != GapRecovery && o in s.barriers
    case PnlRow => s.pnl.poll.Some?
    case PnlConnects(_) => Reconnect !in s.barriers
    case _ => true
  }

  function Move(s: State, e: Plant.Event): State {
    s.(plant := Plant.Next(s.plant, e))
  }

  /** `begin_connect` and a new PnL epoch; gap recovery goes straight to its drain. */
  function Begin(s: State, o: Owner): State {
    var epoch := if o == Reconnect then s.pnl.epoch else s.pnl.epoch + 1;
    var phase := if o == GapRecovery then Draining else Subscribing;
    s.(plant := Plant.Next(s.plant, Plant.BeginConnect),
       pnl := s.pnl.(epoch := epoch, observed := if o == Reconnect then s.pnl.observed else false),
       poll := if o == GapRecovery then s.poll.(poller := Recovering) else s.poll,
       barriers := s.barriers[o := Barrier(phase, s.now, s.now, epoch, false, None)])
  }

  /** The poller goes to wait at `p`. */
  function At(s: State, p: Poller): State {
    s.(poll := s.poll.(poller := p))
  }

  /** What each owner does when its barrier raises. */
  function Fail(s: State, o: Owner): State {
    var out := s.(barriers := s.barriers - {o});
    match o
    case GapRecovery => At(Move(out, Plant.ResyncFailed), RetryPause)
    case Restore => Move(out, Plant.Latch)
    case Reconnect => Move(out, Plant.Latch)
  }

  function SetPhase(s: State, o: Owner, phase: Phase): State
    requires o in s.barriers
  {
    s.(barriers := s.barriers[o := s.barriers[o].(phase := phase)])
  }

  /** After the drain: the PnL gate, when there is a PnL stream. */
  function AfterDrain(s: State, o: Owner): State
    requires o in s.barriers
  {
    var b := s.barriers[o].(gated := s.pnl.connected);
    s.(barriers := s.barriers[o :=
      if !s.pnl.connected then b.(phase := Seeding)
      else if s.pnl.observed then b.(phase := Seeding, row := Some(s.pnl.epoch))
      else b.(phase := AwaitingPnl(false))])
  }

  predicate PollAlive(s: State, o: Owner) {
    o == GapRecovery || s.poll.poller != Stopped
  }

  /** `rearm`, and what follows when it is refused. */
  function Rearm(s: State, o: Owner): State
    requires o in s.barriers
  {
    var alive := PollAlive(s, o);
    var next := Move(s, if alive then Plant.RearmAlive else Plant.RearmDead);
    if s.plant == Plant.Connecting && alive then
      next.(barriers := s.barriers - {o}, armed := Some(s.barriers[o]),
            poll := if o == GapRecovery then s.poll.(poller := Polling) else s.poll)
    else if o == Reconnect then next.(barriers := s.barriers - {o})
    else Fail(next, o)
  }

  function Wake(b: Barrier, epoch: nat): Barrier {
    if b.phase.AwaitingPnl? && !b.phase.woken then b.(phase := AwaitingPnl(true), row := Some(epoch)) else b
  }

  /** One step's effect, the clock aside. */
  function Act(s: State, a: Label): State
    requires Enabled(s, a)
  {
    match a
    case PollBatch(rows) =>
      var e := ProcessBatch(s.plant, rows);
      var t := s.(plant := e.plant, loss := if Lossy(rows) then Loss(s.now, s.poll.id) else s.loss);
      if e.stopped then At(t, Stopped) else if e.lost > 0 then Begin(t, GapRecovery) else t
    case PollTransient =>
      var t := s.(poll := s.poll.(streak := s.poll.streak + 1));
      if t.poll.streak >= MAX_TRANSIENT then At(Move(t, Plant.Latch), Stopped) else At(t, Pausing)
    case PollTerminal => At(Move(s, Plant.ResyncFailed), Stopped)
    case PollReconnectable => At(s, Pausing)
    case PollChannelError => At(Move(s, Plant.ResyncStart), Resubscribing)
    case ResyncEnds(ok) =>
      if ok then Move(s, Plant.ResyncComplete).(poll := s.poll.(poller := Pausing, streak := 0))
      else At(Move(s, Plant.ResyncFailed), Pausing)
    case PauseEnds => if s.poll.poller == RetryPause then Begin(s, GapRecovery) else At(s, Polling)
    case BeginBarrier(o) => Begin(s, o)
    case SubscribeEnds(o, ok) =>
      if !ok then (if o == Reconnect then Move(s, Plant.Disconnect).(barriers := s.barriers - {o}) else Fail(s, o))
      else
        s.(poll := if s.poll.poller == Stopped then Poll(Polling, s.poll.id + 1, 0) else s.poll,
           barriers := s.barriers[o := s.barriers[o].(phase := Draining, drainAt := s.now)])
    case DrainEnds(o, ok) => if ok then AfterDrain(s, o) else Fail(s, o)
    case GateEnds(o, ok) => if ok then SetPhase(s, o, Seeding) else Fail(s, o)
    case SeedEnds(o, ok) => if ok then Rearm(s, o) else Fail(s, o)
    case Cancel(o) => s.(barriers := s.barriers - {o})
    case CancelPoller => At(s, Stopped).(barriers := s.barriers - {GapRecovery})
    case PnlPollBegins => s.(pnl := s.pnl.(poll := Some(s.pnl.epoch)))
    case PnlRow =>
      if s.pnl.poll.value == s.pnl.epoch
      then s.(pnl := s.pnl.(observed := true), barriers := map o | o in s.barriers :: Wake(s.barriers[o], s.pnl.epoch))
      else s
    case PnlReset => s.(pnl := s.pnl.(epoch := s.pnl.epoch + 1, observed := false))
    case PnlConnects(up) => s.(pnl := s.pnl.(connected := up))
    case LatchNow => Move(s, Plant.Latch)
    case PlantDown => Move(s, Plant.Disconnect)
  }

  function Step(s: State, a: Label): State
    requires Enabled(s, a)
  {
    Act(s, a).(now := s.now + 1)
  }

  // --- what every run keeps ----------------------------------------------------------------

  /** The step calls `begin_connect`. */
  predicate Begins(s: State, a: Label) {
    match a
    case BeginBarrier(_) => true
    case PauseEnds => s.poll.poller == RetryPause
    case PollBatch(rows) => !ProcessBatch(s.plant, rows).stopped && ProcessBatch(s.plant, rows).lost > 0
    case _ => false
  }

  function BegunBy(a: Label): Owner {
    if a.BeginBarrier? then a.owner else GapRecovery
  }

  /** The last loss, this step's own included. */
  function LossAfter(s: State, a: Label): nat {
    if a.PollBatch? && Lossy(a.rows) then s.now else s.loss.at
  }

  /** Another barrier is past its subscribe with a drain older than the last loss. */
  predicate Outdated(s: State, a: Label, o: Owner) {
    && o in s.barriers && o != BegunBy(a)
    && !s.barriers[o].phase.Subscribing?
    && s.barriers[o].drainAt < LossAfter(s, a)
  }

  /** `begin_connect` puts a plant back into `Connecting` under an outdated barrier. */
  ghost predicate Risky(s: State, a: Label) {
    Begins(s, a) && exists o :: Outdated(s, a, o)
  }

  /** A loss that no re-arm has answered with a drain begun after it. */
  predicate Owed(s: State) {
    s.loss.at > 0 && (s.armed.None? || s.armed.value.drainAt < s.loss.at)
  }

  ghost predicate TimesPast(s: State) {
    && s.now > s.loss.at
    && (forall o :: o in s.barriers ==> s.barriers[o].beganAt <= s.barriers[o].drainAt < s.now)
  }

  /** An armed plant was armed by a drain begun after the last loss. */
  ghost predicate ArmedIsFresh(s: State) {
    Plant.AllowCancel(s.plant) ==> s.armed.Some? && s.armed.value.drainAt >= s.loss.at
  }

  /** A barrier that can still arm the plant drains after the last loss. */
  ghost predicate BarrierIsFresh(s: State) {
    s.plant == Plant.Connecting ==>
      forall o :: o in s.barriers ==> s.barriers[o].phase.Subscribing? || s.barriers[o].drainAt >= s.loss.at
  }

  /** The poller that saw the loss recovers, waits to retry or has stopped; it does not poll. */
  ghost predicate PollerHeld(s: State) {
    && (s.poll.poller == Recovering <==> GapRecovery in s.barriers)
    && s.loss.seenBy <= s.poll.id
    && (Owed(s) && s.loss.seenBy == s.poll.id
        ==> s.poll.poller == Recovering || s.poll.poller == RetryPause || s.poll.poller == Stopped)
  }

  /** A PnL row counts for a barrier only if its poll began in the barrier's epoch or later. */
  ghost predicate RowIsFresh(s: State, b: Barrier) {
    && b.epoch <= s.pnl.epoch
    && (b.row.Some? ==> b.epoch <= b.row.value <= s.pnl.epoch)
    && (b.gated && (b.phase.Seeding? || (b.phase.AwaitingPnl? && b.phase.woken)) ==> b.row.Some?)
  }

  ghost predicate GateIsFresh(s: State) {
    && (forall o :: o in s.barriers ==> RowIsFresh(s, s.barriers[o]))
    && (s.armed.Some? ==> RowIsFresh(s, s.armed.value) && s.armed.value.phase.Seeding?)
  }

  ghost predicate Inv(s: State) {
    TimesPast(s) && ArmedIsFresh(s) && BarrierIsFresh(s) && PollerHeld(s) && GateIsFresh(s)
  }

  lemma {:induction false} InitHolds(pnlConnected: bool)
    ensures Inv(Init(pnlConnected))
  {
  }

  /** What `begin_connect` needs of the state it runs in; the loss may be this very step's. */
  ghost predicate MayBegin(s: State, o: Owner) {
    && s.loss.at <= s.now && s.loss.seenBy <= s.poll.id
    && (forall p :: p in s.barriers ==> s.barriers[p].beganAt <= s.barriers[p].drainAt < s.now)
    && (forall p :: p in s.barriers && p != o ==>
                      s.barriers[p].phase.Subscribing? || s.barriers[p].drainAt >= s.loss.at)
  }

  lemma {:induction false} BeginTimes(s: State, o: Owner)
    requires MayBegin(s, o)
    ensures var t := Begin(s, o).(now := s.now + 1); TimesPast(t) && ArmedIsFresh(t) && BarrierIsFresh(t)
  {
  }

  lemma {:induction false} BeginPoller(s: State, o: Owner)
    requires MayBegin(s, o) && (o != GapRecovery ==> PollerHeld(s))
    ensures PollerHeld(Begin(s, o).(now := s.now + 1))
  {
    assert o in Begin(s, o).barriers;
  }

  lemma {:induction false} BeginGate(s: State, o: Owner)
    requires GateIsFresh(s)
    ensures GateIsFresh(Begin(s, o).(now := s.now + 1))
  {
  }

  lemma {:induction false} BeginHolds(s: State, o: Owner)
    requires MayBegin(s, o) && GateIsFresh(s) && (o != GapRecovery ==> PollerHeld(s))
    ensures Inv(Begin(s, o).(now := s.now + 1))
  {
    BeginTimes(s, o);
    BeginPoller(s, o);
    BeginGate(s, o);
  }

  predicate AtWork(p: Poller) {
    p == Polling || p == Pausing || p == Resubscribing
  }

  /** A step that only moves the plant and the poller, without arming or opening a barrier. */
  lemma {:induction false} QuietHolds(s: State, plant: Plant.State, poller: Poller, streak: nat)
    requires Inv(s)
    requires (Plant.AllowCancel(plant) ==> Plant.AllowCancel(s.plant))
        && (plant == Plant.Connecting ==> s.plant == plant)
    requires poller == s.poll.poller || (AtWork(s.poll.poller) && (AtWork(poller) || poller == Stopped))
    ensures Inv(s.(plant := plant, poll := Poll(poller, s.poll.id, streak), now := s.now + 1))
  {
  }

  lemma {:induction false} TransientHolds(s: State)
    requires Inv(s) && Enabled(s, PollTransient)
    ensures Inv(Step(s, PollTransient))
  {
    if s.poll.streak + 1 >= MAX_TRANSIENT {
      QuietHolds(s, Plant.Latched, Stopped, s.poll.streak + 1);
    } else {
      QuietHolds(s, s.plant, Pausing, s.poll.streak + 1);
    }
  }

  lemma {:induction false} ResyncHolds(s: State, ok: bool)
    requires Inv(s) && Enabled(s, ResyncEnds(ok))
    ensures Inv(Step(s, ResyncEnds(ok)))
  {
    if ok {
      QuietHolds(s, Plant.Next(s.plant, Plant.ResyncComplete), Pausing, 0);
    } else {
      QuietHolds(s, Plant.Next(s.plant, Plant.ResyncFailed), Pausing, s.poll.streak);
    }
  }

  lemma {:induction false} BatchHolds(s: State, rows: seq<Row>)
    requires Inv(s) && Enabled(s, PollBatch(rows)) && !Risky(s, PollBatch(rows))
    ensures Inv(Step(s, PollBatch(rows)))
  {
    LossIsNoticed(s.plant, rows);
    var e := ProcessBatch(s.plant, rows);
    if !e.stopped && e.lost > 0 {
      assert forall p :: p in s.barriers && p != GapRecovery ==> !Outdated(s, PollBatch(rows), p);
      BeginHolds(s.(plant := e.plant, loss := Loss(s.now, s.poll.id)), GapRecovery);
    }
  }

  lemma {:induction false} FailHolds(s: State, o: Owner)
    requires Inv(s) && o in s.barriers
    ensures Inv(Fail(s, o).(now := s.now + 1))
  {
  }

  /** A refused re-arm leaves the plant un-armed. */
  lemma {:induction false} RefusedHolds(s: State, o: Owner, plant: Plant.State)
    requires Inv(s) && o in s.barriers && !Plant.AllowCancel(plant) && plant != Plant.Connecting
    ensures Inv(Fail(s.(plant := plant), o).(now := s.now + 1))
    ensures o != GapRecovery ==> Inv(s.(plant := plant, barriers := s.barriers - {o}, now := s.now + 1))
  {
    FailHolds(s, o);
  }

  lemma {:induction false} ArmedHolds(s: State, o: Owner)
    requires Inv(s) && o in s.barriers && s.barriers[o].phase.Seeding? && s.plant == Plant.Connecting
    ensures Inv(s.(plant := Plant.Live, barriers := s.barriers - {o}, armed := Some(s.barriers[o]),
                   poll := if o == GapRecovery then s.poll.(poller := Polling) else s.poll, now := s.now + 1))
  {
  }

  lemma {:induction false} RearmRefused(s: State, o: Owner)
    requires Inv(s) && o in s.barriers && !(s.plant == Plant.Connecting && PollAlive(s, o))
    ensures Inv(Rearm(s, o).(now := s.now + 1))
  {
    RefusedHolds(s, o, Plant.Next(s.plant, if PollAlive(s, o) then Plant.RearmAlive else Plant.RearmDead));
  }

  lemma {:induction false} RearmHolds(s: State, o: Owner)
    requires Inv(s) && o in s.barriers && s.barriers[o].phase.Seeding?
    ensures Inv(Rearm(s, o).(now := s.now + 1))
  {
    if s.plant == Plant.Connecting && PollAlive(s, o) {
      ArmedHolds(s, o);
    } else {
      RearmRefused(s, o);
    }
  }

  /** Steps that move one barrier to its next phase or drop it. */
  lemma {:induction false} AdvanceHolds(s: State, o: Owner, b: Barrier)
    requires Inv(s) && o in s.barriers
    requires b.beganAt == s.barriers[o].beganAt <= b.drainAt <= s.now && RowIsFresh(s, b)
    requires b.drainAt >= s.loss.at || (!s.barriers[o].phase.Subscribing? && b.drainAt == s.barriers[o].drainAt)
    ensures Inv(s.(barriers := s.barriers[o := b], now := s.now + 1))
  {
  }

  /** A subscribe that finds the poller stopped starts a new one. */
  lemma {:induction false} PollerStarts(s: State)
    requires Inv(s) && s.poll.poller == Stopped
    ensures Inv(s.(poll := Poll(Polling, s.poll.id + 1, 0)))
  {
  }

  lemma {:induction false} SubscribedStarts(s: State, o: Owner)
    requires Inv(s) && Enabled(s, SubscribeEnds(o, true)) && s.poll.poller == Stopped
    ensures Inv(Step(s, SubscribeEnds(o, true)))
  {
    PollerStarts(s);
    AdvanceHolds(s.(poll := Poll(Polling, s.poll.id + 1, 0)), o, s.barriers[o].(phase := Draining, drainAt := s.now));
  }

  lemma {:induction false} SubscribedHolds(s: State, o: Owner)
    requires Inv(s) && Enabled(s, SubscribeEnds(o, true)) && s.poll.poller != Stopped
    ensures Inv(Step(s, SubscribeEnds(o, true)))
  {
    AdvanceHolds(s, o, s.barriers[o].(phase := Draining, drainAt := s.now));
  }

  lemma {:induction false} SubscribeFails(s: State, o: Owner)
    requires Inv(s) && Enabled(s, SubscribeEnds(o, false))
    ensures Inv(Step(s, SubscribeEnds(o, false)))
  {
    if o == Reconnect {
      RefusedHolds(s, o, Plant.Disconnected);
    } else {
      FailHolds(s, o);
    }
  }

  lemma {:induction false} SubscribeHolds(s: State, o: Owner, ok: bool)
    requires Inv(s) && Enabled(s, SubscribeEnds(o, ok))
    ensures Inv(Step(s, SubscribeEnds(o, ok)))
  {
    if !ok {
      SubscribeFails(s, o);
    } else if s.poll.poller == Stopped {
      SubscribedStarts(s, o);
    } else {
      SubscribedHolds(s, o);
    }
  }

  lemma {:induction false} DrainHolds(s: State, o: Owner, ok: bool)
    requires Inv(s) && Enabled(s, DrainEnds(o, ok))
    ensures Inv(Step(s, DrainEnds(o, ok)))
  {
    if ok {
      AdvanceHolds(s, o, AfterDrain(s, o).barriers[o]);
    } else {
      FailHolds(s, o);
    }
  }

  lemma {:induction false} GateHolds(s: State, o: Owner, ok: bool)
    requires Inv(s) && Enabled(s, GateEnds(o, ok))
    ensures Inv(Step(s, GateEnds(o, ok)))
  {
    if ok {
      AdvanceHolds(s, o, s.barriers[o].(phase := Seeding));
    } else {
      FailHolds(s, o);
    }
  }

  lemma {:induction false} SeedHolds(s: State, o: Owner, ok: bool)
    requires Inv(s) && Enabled(s, SeedEnds(o, ok))
    ensures Inv(Step(s, SeedEnds(o, ok)))
  {
    if ok {
      RearmHolds(s, o);
    } else {
      FailHolds(s, o);
    }
  }

  lemma {:induction false} RetryHolds(s: State)
    requires Inv(s) && s.poll.poller == RetryPause && !Risky(s, PauseEnds)
    ensures Inv(Step(s, PauseEnds))
  {
    assert forall p :: p in s.barriers && p != GapRecovery ==> !Outdated(s, PauseEnds, p);
    BeginHolds(s, GapRecovery);
  }

  lemma {:induction false} PauseHolds(s: State)
    requires Inv(s) && Enabled(s, PauseEnds) && !Risky(s, PauseEnds)
    ensures Inv(Step(s, PauseEnds))
  {
    if s.poll.poller == RetryPause {
      RetryHolds(s);
    } else {
      QuietHolds(s, s.plant, Polling, s.poll.streak);
    }
  }

  /** A PnL row opens the gate only when its poll began in the current epoch. */
  lemma {:induction false} PnlRowHolds(s: State)
    requires Inv(s) && Enabled(s, PnlRow)
    ensures Inv(Step(s, PnlRow))
  {
    var t := Step(s, PnlRow);
    assert forall o :: o in t.barriers <==> o in s.barriers;
    forall o | o in t.barriers
      ensures RowIsFresh(t, t.barriers[o])
      ensures t.barriers[o].beganAt == s.barriers[o].beganAt && t.barriers[o].drainAt == s.barriers[o].drainAt
    {
      assert RowIsFresh(s, s.barriers[o]);
    }
  }

  lemma {:induction false} PnlHolds(s: State, a: Label)
    requires Inv(s) && Enabled(s, a) && (a.PnlPollBegins? || a.PnlReset? || a.PnlConnects?)
    ensures Inv(Step(s, a))
  {
  }

  lemma {:induction false} CancelHolds(s: State, a: Label)
    requires Inv(s) && Enabled(s, a) && (a.Cancel? || a.CancelPoller?)
    ensures Inv(Step(s, a))
  {
  }

  lemma {:induction false} OpenHolds(s: State, o: Owner)
    requires Inv(s) && Enabled(s, BeginBarrier(o)) && !Risky(s, BeginBarrier(o))
    ensures Inv(Step(s, BeginBarrier(o)))
  {
    assert forall p :: p in s.barriers && p != o ==> !Outdated(s, BeginBarrier(o), p);
    BeginHolds(s, o);
  }

  /** Steps that move the plant and the poller by a table entry each. */
  lemma {:induction false} MoveHolds(s: State, a: Label)
    requires Inv(s) && Enabled(s, a)
    requires a.LatchNow? || a.PlantDown? || a.PollTerminal? || a.PollReconnectable? || a.PollChannelError?
    ensures Inv(Step(s, a))
  {
    var t := Step(s, a);
    QuietHolds(s, t.plant, t.poll.poller, t.poll.streak);
  }

  /** Every step that is not risky keeps the invariant. */
  lemma {:induction false} StepHolds(s: State, a: Label)
    requires Inv(s) && Enabled(s, a) && !Risky(s, a)
    ensures Inv(Step(s, a))
  {
    match a
    case PollBatch(rows) => BatchHolds(s, rows);
    case PauseEnds => PauseHolds(s);
    case BeginBarrier(o) => OpenHolds(s, o);
    case SubscribeEnds(o, ok) => SubscribeHolds(s, o, ok);
    case DrainEnds(o, ok) => DrainHolds(s, o, ok);
    case GateEnds(o, ok) => GateHolds(s, o, ok);
    case SeedEnds(o, ok) => SeedHolds(s, o, ok);
    case Cancel(o) => CancelHolds(s, a);
    case CancelPoller => CancelHolds(s, a);
    case PnlRow => PnlRowHolds(s);
    case PnlPollBegins => PnlHolds(s, a);
    case PnlReset => PnlHolds(s, a);
    case PnlConnects(_) => PnlHolds(s, a);
    case ResyncEnds(ok) => ResyncHolds(s, ok);
    case LatchNow => MoveHolds(s, a);
    case PlantDown => MoveHolds(s, a);
    case PollTransient => TransientHolds(s);
    case PollTerminal => MoveHolds(s, a);
    case PollReconnectable => MoveHolds(s, a);
    case PollChannelError => MoveHolds(s, a);
  }
}
