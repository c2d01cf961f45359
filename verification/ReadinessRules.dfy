/**
 The steps of the readiness machine one by one, in terms of the plant, the poller and the
 barriers alone, and what opens the PnL gate over a whole run.
 */
module ReadinessRules {
  import opened Basics
  import opened Readiness
  import opened ReadinessRuns
  import Plant

  // --- the batch ----------------------------------------------------------------------------

  /** The plant is latched by an anomaly or a handler that raises, and by nothing else in a batch. */
  lemma {:induction false} BatchLatches(plant: Plant.State, rows: seq<Row>)
    ensures (exists i :: 0 <= i < |rows| && (rows[i].Anomalous? || rows[i].Failing?)) ==>
              ProcessBatch(plant, rows).plant == Plant.Latched
    ensures (forall i :: 0 <= i < |rows| ==> !rows[i].Anomalous? && !rows[i].Failing?) ==>
              ProcessBatch(plant, rows).plant == plant
    ensures ProcessBatch(plant, rows).stopped <==> exists i :: 0 <= i < |rows| && rows[i].Failing?
    ensures plant == Plant.Latched ==> ProcessBatch(plant, rows).plant == Plant.Latched
    decreases |rows|
  {
    if rows != [] {
      BatchLatches(plant, rows[1..]);
      BatchLatches(Plant.Latched, rows[1..]);
      assert forall i :: 1 <= i < |rows| ==> rows[i] == rows[1..][i - 1];
      if i :| 0 <= i < |rows[1..]| && rows[1..][i].Failing? {
        assert rows[i + 1].Failing?;
      }
    }
  }

  /** A batch that is not stopped loses one event with each gap and each unreadable row. */
  lemma {:induction false} LostAppend(plant: Plant.State, rows: seq<Row>, r: Row)
    requires !ProcessBatch(plant, rows + [r]).stopped
    ensures ProcessBatch(plant, []).lost == 0
    ensures ProcessBatch(plant, rows + [r]).lost
         == ProcessBatch(plant, rows).lost + (if r.GapRow? || r.Unreadable? then 1 else 0)
    decreases |rows|
  {
    if rows == [] {
      assert [r][1..] == [] && rows + [r] == [r];
    } else {
      assert (rows + [r])[1..] == rows[1..] + [r];
      LostAppend(if rows[0].Anomalous? then Plant.Latched else plant, rows[1..], r);
    }
  }

  // --- the poller ---------------------------------------------------------------------------

  /** The fifth transient error in a row latches the plant and ends the poller; the ones before it pause it. */
  lemma {:induction false} TransientTable(s: State)
    requires s.poll.poller == Polling
    ensures s.poll.streak < 4 ==>
              Step(s, PollTransient) == s.(poll := Poll(Pausing, s.poll.id, s.poll.streak + 1), now := s.now + 1)
    ensures s.poll.streak >= 4 ==>
              Step(s, PollTransient)
              == s.(plant := Plant.Latched, poll := Poll(Stopped, s.poll.id, s.poll.streak + 1), now := s.now + 1)
  {
  }

  /** The run of transient errors starts over with a successful resync or a new poller, and only then. */
  lemma {:induction false} StreakTable(s: State, a: Label)
    requires Enabled(s, a) && !a.PollTransient?
    ensures var starts := a.SubscribeEnds? && a.ok && s.poll.poller == Stopped;
      && Step(s, a).poll.streak == (if starts || (a.ResyncEnds? && a.ok) then 0 else s.poll.streak)
      && Step(s, a).poll.id == if starts then s.poll.id + 1 else s.poll.id
  {
  }

  /** A closed session ends the poller, a lost transport pauses it, a channel error has it resubscribe. */
  lemma {:induction false} ErrorTable(s: State)
    requires s.poll.poller == Polling
    ensures Step(s, PollTerminal).poll.poller == Stopped
    ensures Step(s, PollTerminal).plant == if s.plant == Plant.Latched then Plant.Latched else Plant.Disconnected
    ensures Step(s, PollReconnectable).poll.poller == Pausing && Step(s, PollReconnectable).plant == s.plant
    ensures Step(s, PollChannelError).poll.poller == Resubscribing
    ensures Step(s, PollChannelError).plant == Plant.Next(s.plant, Plant.ResyncStart)
    ensures Step(s, PollTerminal).barriers == s.barriers && Step(s, PollReconnectable).barriers == s.barriers
    ensures Step(s, PollChannelError).barriers == s.barriers
  {
  }

  lemma {:induction false} ResyncTable(s: State, ok: bool)
    requires s.poll.poller == Resubscribing
    ensures Step(s, ResyncEnds(ok)).poll.poller == Pausing && Step(s, ResyncEnds(ok)).barriers == s.barriers
    ensures Step(s, ResyncEnds(ok)).plant
         == if !ok then (if s.plant == Plant.Latched then Plant.Latched else Plant.Disconnected)
            else if s.plant == Plant.Resyncing then Plant.Live else s.plant
  {
  }

  /** A pause ends in a poll; the pause after a failed recovery ends in another recovery. */
  lemma {:induction false} PauseTable(s: State)
    ensures s.poll.poller == Pausing ==> Step(s, PauseEnds) == s.(poll := s.poll.(poller := Polling), now := s.now + 1)
    ensures s.poll.poller == RetryPause ==> Recovers(s, Step(s, PauseEnds))
  {
  }

  /** A batch that loses something and is not stopped goes into recovery; one that loses nothing goes on polling. */
  lemma {:induction false} BatchTable(s: State, rows: seq<Row>)
    requires s.poll.poller == Polling
    ensures var e, t := ProcessBatch(s.plant, rows), Step(s, PollBatch(rows));
      && (e.stopped ==> t.poll.poller == Stopped && t.plant == e.plant && t.barriers == s.barriers && t.pnl == s.pnl)
      && (!e.stopped && Lossy(rows) ==> Recovers(s.(plant := e.plant), t))
      && (!e.stopped && !Lossy(rows) ==> t == s.(plant := e.plant, now := s.now + 1))
  {
    LossIsNoticed(s.plant, rows);
  }

  /** A gap recovery has begun: barrier, drain, a new PnL epoch with the gate closed. */
  ghost predicate Recovers(s: State, t: State) {
    && t.plant == Plant.Connecting && t.poll.poller == Recovering
    && t.pnl == s.pnl.(epoch := s.pnl.epoch + 1, observed := false)
    && t.barriers == s.barriers[GapRecovery := Barrier(Draining, s.now, s.now, s.pnl.epoch + 1, false, None)]
    && t.armed == s.armed
  }

  // --- the barriers ----------------------------------------------------------------------------

  /** A restore opens a new PnL epoch with the gate closed; a reconnect has done so before. */
  lemma {:induction false} OpenTable(s: State, o: Owner)
    requires o != GapRecovery && o !in s.barriers
    ensures Enabled(s, BeginBarrier(o))
    ensures var t := Step(s, BeginBarrier(o));
      && t.plant == Plant.Connecting && t.poll == s.poll && t.armed == s.armed && t.loss == s.loss
      && t.barriers.Keys == s.barriers.Keys + {o}
      && t.barriers[o] == Barrier(Subscribing, s.now, s.now, t.pnl.epoch, false, None)
      && (o == Restore ==> t.pnl.epoch == s.pnl.epoch + 1 && !t.pnl.observed)
      && (o == Reconnect ==> t.pnl == s.pnl)
  {
  }

  /** Subscribed: the drain is issued now, and a poller runs. */
  lemma {:induction false} SubscribedTable(s: State, o: Owner)
    requires Enabled(s, SubscribeEnds(o, true))
    ensures var t := Step(s, SubscribeEnds(o, true));
      && t.barriers == s.barriers[o := s.barriers[o].(phase := Draining, drainAt := s.now)]
      && t.poll.poller == (if s.poll.poller == Stopped then Polling else s.poll.poller)
      && t.plant == s.plant && t.pnl == s.pnl && t.armed == s.armed
  {
  }

  /** Drained: on to the account when there is no PnL stream or it was observed, else wait for a row. */
  lemma {:induction false} DrainedTable(s: State, o: Owner)
    requires Enabled(s, DrainEnds(o, true))
    ensures var t := Step(s, DrainEnds(o, true));
      && t.barriers[o].phase == (if s.pnl.connected && !s.pnl.observed then AwaitingPnl(false) else Seeding)
      && t.barriers[o].gated == s.pnl.connected && t.barriers[o].drainAt == s.barriers[o].drainAt
      && t.plant == s.plant && t.poll == s.poll && t.pnl == s.pnl && t.barriers.Keys == s.barriers.Keys
      && forall p :: p in s.barriers && p != o ==> t.barriers[p] == s.barriers[p]
  {
  }

  /** The gate lets a barrier through only after it was woken. */
  lemma {:induction false} GateTable(s: State, o: Owner)
    requires o in s.barriers && s.barriers[o].phase.AwaitingPnl?
    ensures Enabled(s, GateEnds(o, true)) <==> s.barriers[o].phase.woken
    ensures s.barriers[o].phase.woken ==>
              Step(s, GateEnds(o, true))
              == s.(barriers := s.barriers[o := s.barriers[o].(phase := Seeding)], now := s.now + 1)
  {
  }

  /** A barrier that fails is gone and its plant is not armed: gap recovery retries, the others latch. */
  lemma {:induction false} FailTable(s: State, o: Owner, a: Label)
    requires a == DrainEnds(o, false) || a == GateEnds(o, false) || a == SeedEnds(o, false)
             || (a == SubscribeEnds(o, false) && o != Reconnect)
    requires Enabled(s, a)
    ensures var t := Step(s, a);
      && t.barriers == s.barriers - {o} && t.armed == s.armed && t.pnl == s.pnl && t.loss == s.loss
      && (o == GapRecovery ==> t.poll.poller == RetryPause && t.plant != Plant.Live && t.plant != Plant.Connecting)
      && (o == GapRecovery && s.plant == Plant.Latched ==> t.plant == Plant.Latched)
      && (o == GapRecovery && s.plant != Plant.Latched ==> t.plant == Plant.Disconnected)
      && (o != GapRecovery ==> t.plant == Plant.Latched && t.poll == s.poll)
  {
  }

  lemma {:induction false} SubscribeFailTable(s: State)
    requires Enabled(s, SubscribeEnds(Reconnect, false))
    ensures Step(s, SubscribeEnds(Reconnect, false))
         == s.(plant := Plant.Disconnected, barriers := s.barriers - {Reconnect}, now := s.now + 1)
  {
  }

  /**
   The re-arm: the plant goes live exactly from `Connecting` with a poller, its barrier is done and
   a recovering poller polls again. Refused, the plant stays latched or goes down, and then as a failure.
   */
  lemma {:induction false} RearmTable(s: State, o: Owner)
    requires Enabled(s, SeedEnds(o, true))
    ensures var t := Step(s, SeedEnds(o, true));
      && t.barriers == s.barriers - {o}
      && (t.plant == Plant.Live <==> s.plant == Plant.Connecting && (o == GapRecovery || s.poll.poller != Stopped))
      && (t.plant == Plant.Live ==> t.armed == Some(s.barriers[o]))
      && (t.plant == Plant.Live && o == GapRecovery ==> t.poll.poller == Polling)
      && (o != GapRecovery ==> t.poll == s.poll)
      && (t.plant != Plant.Live ==> t.armed == s.armed)
      && (t.plant != Plant.Live && o == GapRecovery ==> t.poll.poller == RetryPause)
      && (t.plant != Plant.Live && o == Restore ==> t.plant == Plant.Latched)
      && (t.plant != Plant.Live && o == Reconnect ==>
            t.plant == if s.plant == Plant.Latched then Plant.Latched else Plant.Disconnected)
  {
  }

  /** Cancelling drops the barrier, or the poller with its recovery, and nothing else. */
  lemma {:induction false} CancelTable(s: State, o: Owner)
    ensures o != GapRecovery && o in s.barriers ==>
              Enabled(s, Cancel(o)) && Step(s, Cancel(o)) == s.(barriers := s.barriers - {o}, now := s.now + 1)
    ensures Enabled(s, CancelPoller)
    ensures Step(s, CancelPoller)
         == s.(poll := s.poll.(poller := Stopped), barriers := s.barriers - {GapRecovery}, now := s.now + 1)
    ensures Step(s, LatchNow) == s.(plant := Plant.Latched, now := s.now + 1)
    ensures Step(s, PlantDown) == s.(plant := Plant.Disconnected, now := s.now + 1)
  {
  }

  /** What can happen when. */
  lemma {:induction false} EnabledPolls(s: State, ok: bool, rows: seq<Row>)
    ensures Enabled(s, PollBatch(rows)) <==> s.poll.poller == Polling
    ensures Enabled(s, PollTransient) <==> s.poll.poller == Polling
    ensures Enabled(s, PollTerminal) <==> s.poll.poller == Polling
    ensures Enabled(s, PollReconnectable) <==> s.poll.poller == Polling
    ensures Enabled(s, PollChannelError) <==> s.poll.poller == Polling
    ensures Enabled(s, ResyncEnds(ok)) <==> s.poll.poller == Resubscribing
    ensures Enabled(s, PauseEnds) <==> s.poll.poller == Pausing || s.poll.poller == RetryPause
  {
  }

  lemma {:induction false} EnabledBarriers(s: State, o: Owner, ok: bool, up: bool)
    ensures Enabled(s, BeginBarrier(o)) <==> o != GapRecovery && o !in s.barriers
    ensures Enabled(s, SubscribeEnds(o, ok)) <==>
            o != GapRecovery && o in s.barriers && s.barriers[o].phase == Subscribing
    ensures Enabled(s, DrainEnds(o, ok)) <==> o in s.barriers && s.barriers[o].phase == Draining
    ensures Enabled(s, SeedEnds(o, ok)) <==> o in s.barriers && s.barriers[o].phase == Seeding
    ensures Enabled(s, PnlRow) <==> s.pnl.poll.Some?
    ensures Enabled(s, PnlConnects(up)) <==> Reconnect !in s.barriers
    ensures Enabled(s, PnlPollBegins) && Enabled(s, PnlReset) && Enabled(s, LatchNow) && Enabled(s, PlantDown)
  {
  }

  /** Nothing runs at the start. */
  lemma {:induction false} InitTable(c: bool)
    ensures Init(c).plant == Plant.Disconnected && Init(c).poll == Poll(Stopped, 0, 0) && Init(c).barriers == map[]
    ensures !Init(c).pnl.observed && Init(c).pnl.poll == None && Init(c).pnl.connected == c && Init(c).armed == None
    ensures Init(c).loss.at == 0
  {
  }

  // --- the PnL gate --------------------------------------------------------------------------------

  /** A PnL row of a poll of the current epoch opens the gate and wakes every barrier at it; a late one does nothing. */
  lemma {:induction false} PnlTable(s: State, up: bool)
    ensures Step(s, PnlPollBegins) == s.(pnl := s.pnl.(poll := Some(s.pnl.epoch)), now := s.now + 1)
    ensures Step(s, PnlReset) == s.(pnl := s.pnl.(epoch := s.pnl.epoch + 1, observed := false), now := s.now + 1)
    ensures Reconnect !in s.barriers ==>
              Step(s, PnlConnects(up)) == s.(pnl := s.pnl.(connected := up), now := s.now + 1)
    ensures s.pnl.poll.Some? && s.pnl.poll.value != s.pnl.epoch ==> Step(s, PnlRow) == s.(now := s.now + 1)
    ensures s.pnl.poll == Some(s.pnl.epoch) ==>
              var t := Step(s, PnlRow);
              && t.pnl == s.pnl.(observed := true) && t.barriers.Keys == s.barriers.Keys
              && (forall o :: o in s.barriers && s.barriers[o].phase.AwaitingPnl? ==>
                                t.barriers[o].phase == AwaitingPnl(true))
              && (forall o :: o in s.barriers && !s.barriers[o].phase.AwaitingPnl? ==> t.barriers[o] == s.barriers[o])
              && t.plant == s.plant && t.poll == s.poll
  {
  }

  /** The step opens a new PnL epoch: a stream reset, a restore, or the start of a gap recovery. */
  ghost predicate Turns(s: State, a: Label) {
    a.PnlReset? || a == BeginBarrier(Restore) || (Begins(s, a) && !a.BeginBarrier?)
  }

  /** Told from the steps: whether the poll in flight began in this epoch, and whether a row of such a poll came. */
  datatype Evidence = Evidence(current: bool, seen: bool)

  ghost function Learned(e: Evidence, s: State, a: Label): Evidence {
    if Turns(s, a) then Evidence(false, false)
    else if a.PnlPollBegins? then e.(current := true)
    else if a.PnlRow? && e.current then e.(seen := true)
    else e
  }

  ghost function LearnedAll(e: Evidence, s: State, labels: seq<Label>): Evidence
    requires Runnable(s, labels)
    decreases |labels|
  {
    if labels == [] then e else LearnedAll(Learned(e, s, labels[0]), Step(s, labels[0]), labels[1..])
  }

  ghost predicate Agrees(e: Evidence, s: State) {
    && s.pnl.observed == e.seen && (e.current <==> s.pnl.poll == Some(s.pnl.epoch))
    && (s.pnl.poll.Some? ==> s.pnl.poll.value <= s.pnl.epoch)
  }

  lemma {:induction false} BarrierAgrees(e: Evidence, s: State, a: Label)
    requires Enabled(s, a) && Agrees(e, s)
    requires a.SubscribeEnds? || a.DrainEnds? || a.GateEnds? || a.SeedEnds?
    ensures Agrees(Learned(e, s, a), Step(s, a))
  {
    assert Step(s, a).pnl == s.pnl;
  }

  lemma {:induction false} BeginAgrees(e: Evidence, s: State, a: Label)
    requires Enabled(s, a) && Agrees(e, s)
    requires a.PollBatch? || a.PauseEnds? || a.BeginBarrier?
    ensures Agrees(Learned(e, s, a), Step(s, a))
  {
    match a
    case PollBatch(rows) => BatchTable(s, rows); LossIsNoticed(s.plant, rows);
    case PauseEnds => PauseTable(s);
    case BeginBarrier(o) => OpenTable(s, o);
  }

  lemma {:induction false} StepAgrees(e: Evidence, s: State, a: Label)
    requires Enabled(s, a) && Agrees(e, s)
    ensures Agrees(Learned(e, s, a), Step(s, a))
  {
    if a.SubscribeEnds? || a.DrainEnds? || a.GateEnds? || a.SeedEnds? {
      BarrierAgrees(e, s, a);
    } else if a.PollBatch? || a.PauseEnds? || a.BeginBarrier? {
      BeginAgrees(e, s, a);
    }
  }

  /** The gate is open exactly when, since the epoch began, a row came of a poll begun in it. */
  lemma {:induction false} GateEvidence(c: bool, labels: seq<Label>)
    requires Runnable(Init(c), labels)
    ensures Run(Init(c), labels).pnl.observed <==> LearnedAll(Evidence(false, false), Init(c), labels).seen
  {
    RunAgrees(Evidence(false, false), Init(c), labels);
  }

  lemma {:induction false} RunAgrees(e: Evidence, s: State, labels: seq<Label>)
    requires Runnable(s, labels) && Agrees(e, s)
    ensures Agrees(LearnedAll(e, s, labels), Run(s, labels))
    decreases |labels|
  {
    if labels != [] {
      StepAgrees(e, s, labels[0]);
      RunAgrees(Learned(e, s, labels[0]), Step(s, labels[0]), labels[1..]);
    }
  }
}
