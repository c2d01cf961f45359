/**
 Readiness over whole runs: no order before a drain begun after the last loss, and the one
 step that can break it, a `begin_connect` under another barrier with an outdated drain.
 */
module ReadinessRuns {
  import opened Basics
  import opened Readiness
  import Plant

  // --- runs ------------------------------------------------------------------------------

  ghost predicate Runnable(s: State, labels: seq<Label>)
    decreases |labels|
  {
    labels == [] || (Enabled(s, labels[0]) && Runnable(Step(s, labels[0]), labels[1..]))
  }

  function Run(s: State, labels: seq<Label>): State
    requires Runnable(s, labels)
    decreases |labels|
  {
    if labels == [] then s else Run(Step(s, labels[0]), labels[1..])
  }

  /** No step of the run is risky. */
  ghost predicate Cautious(s: State, labels: seq<Label>)
    requires Runnable(s, labels)
    decreases |labels|
  {
    labels == [] || (!Risky(s, labels[0]) && Cautious(Step(s, labels[0]), labels[1..]))
  }

  lemma {:induction false} RunHolds(s: State, labels: seq<Label>)
    requires Inv(s) && Runnable(s, labels) && Cautious(s, labels)
    ensures Inv(Run(s, labels)) && Run(s, labels).now == s.now + |labels|
    ensures Run(s, labels).loss.at >= s.loss.at
    decreases |labels|
  {
    if labels != [] {
      StepHolds(s, labels[0]);
      LossMonotone(s, labels[0]);
      RunHolds(Step(s, labels[0]), labels[1..]);
    }
  }

  /** The last loss time only grows, and records every lossy batch. */
  lemma {:induction false} LossMonotone(s: State, a: Label)
    requires Inv(s) && Enabled(s, a)
    ensures Step(s, a).loss.at == LossAfter(s, a) >= s.loss.at
  {
  }

  /** The run takes a batch in which an order event was lost after `before`, and goes on with `after`. */
  ghost predicate LossyRun(c: bool, before: seq<Label>, rows: seq<Row>, after: seq<Label>) {
    && Lossy(rows)
    && Runnable(Init(c), before) && Cautious(Init(c), before)
    && Enabled(Run(Init(c), before), PollBatch(rows)) && !Risky(Run(Init(c), before), PollBatch(rows))
    && Runnable(Step(Run(Init(c), before), PollBatch(rows)), after)
    && Cautious(Step(Run(Init(c), before), PollBatch(rows)), after)
  }

  ghost function EndOf(c: bool, before: seq<Label>, rows: seq<Row>, after: seq<Label>): State
    requires LossyRun(c, before, rows, after)
  {
    Run(Step(Run(Init(c), before), PollBatch(rows)), after)
  }

  lemma {:induction false} LossyRunHolds(c: bool, before: seq<Label>, rows: seq<Row>, after: seq<Label>)
    requires LossyRun(c, before, rows, after)
    ensures var u := EndOf(c, before, rows, after); Inv(u) && u.loss.at >= |before| + 1
  {
    InitHolds(c);
    RunHolds(Init(c), before);
    var s := Run(Init(c), before);
    StepHolds(s, PollBatch(rows));
    LossMonotone(s, PollBatch(rows));
    RunHolds(Step(s, PollBatch(rows)), after);
  }

  /**
   Safety over every run in which `begin_connect` never meets an outdated barrier: at every
   point after a batch that lost an order event, whenever submit, modify or cancel is allowed,
   the plant was armed by a barrier whose drain was issued after that batch, and which, when
   there was a PnL stream, saw a row from a poll begun in the epoch the barrier opened or later.
   */
  lemma {:induction false} NoOrderBeforeAFreshDrain(c: bool, before: seq<Label>, rows: seq<Row>, after: seq<Label>)
    requires LossyRun(c, before, rows, after)
    ensures var u := EndOf(c, before, rows, after);
      Plant.AllowSubmit(u.plant) || Plant.AllowModify(u.plant) || Plant.AllowCancel(u.plant) ==>
        && u.armed.Some?
        && u.armed.value.drainAt >= |before| + 1
        && (u.armed.value.gated ==> u.armed.value.row.Some? && u.armed.value.row.value >= u.armed.value.epoch)
  {
    LossyRunHolds(c, before, rows, after);
  }

  /** Until then the poller that saw the loss does not poll: it recovers, waits to retry, or has stopped. */
  lemma {:induction false} NoPollBeforeAFreshDrain(c: bool, before: seq<Label>, rows: seq<Row>, after: seq<Label>)
    requires LossyRun(c, before, rows, after)
    ensures var u := EndOf(c, before, rows, after); Owed(u) && u.poll.id == u.loss.seenBy ==> !AtWork(u.poll.poller)
  {
    LossyRunHolds(c, before, rows, after);
  }

  /** `armed` is only ever set by a re-arm that succeeded, to the barrier that ran it. */
  lemma {:induction false} ArmedOnlyByRearm(s: State, a: Label)
    requires Enabled(s, a) && Step(s, a).armed != s.armed
    ensures a.SeedEnds? && a.ok && s.plant == Plant.Connecting && Step(s, a).plant == Plant.Live
    ensures Step(s, a).armed == Some(s.barriers[a.owner])
  {
  }

  // --- when it fails ------------------------------------------------------------------------

  /** Orders are allowed on a drain older than the last loss. */
  predicate Unsafe(s: State) {
    Plant.AllowSubmit(s.plant) && s.armed.Some? && s.armed.value.drainAt < s.loss.at
  }

  /** A continuation of `s` without a risky step that ends unsafe. */
  ghost predicate Exposes(s: State, labels: seq<Label>) {
    Runnable(s, labels) && Cautious(s, labels) && Unsafe(Run(s, labels))
  }

  lemma {:induction false} Prepend(s: State, a: Label, rest: seq<Label>)
    requires Enabled(s, a) && !Risky(s, a) && Exposes(Step(s, a), rest)
    ensures Exposes(s, [a] + rest)
  {
    assert ([a] + rest)[1..] == rest;
  }

  /** A barrier that can arm the plant with an outdated drain. */
  predicate Armable(s: State, o: Owner) {
    && s.plant == Plant.Connecting && PollAlive(s, o)
    && o in s.barriers && !s.barriers[o].phase.Subscribing? && s.barriers[o].drainAt < s.loss.at
  }

  lemma {:induction false} SeededArms(s: State, o: Owner)
    requires Armable(s, o) && s.barriers[o].phase.Seeding?
    ensures Exposes(s, [SeedEnds(o, true)])
  {
    var a := SeedEnds(o, true);
    assert Unsafe(Step(s, a));
    assert Exposes(Step(s, a), []);
    Prepend(s, a, []);
    assert [a] + [] == [a];
  }

  lemma {:induction false} GatedArms(s: State, o: Owner) returns (labels: seq<Label>)
    requires Armable(s, o) && s.barriers[o].phase == AwaitingPnl(true)
    ensures Exposes(s, labels)
  {
    var a := GateEnds(o, true);
    SeededArms(Step(s, a), o);
    Prepend(s, a, [SeedEnds(o, true)]);
    labels := [a] + [SeedEnds(o, true)];
  }

  /** A PnL poll and its row wake the gate. */
  lemma {:induction false} AwaitingArms(s: State, o: Owner) returns (labels: seq<Label>)
    requires Armable(s, o) && s.barriers[o].phase == AwaitingPnl(false)
    ensures Exposes(s, labels)
  {
    var t := Step(s, PnlPollBegins);
    var u := Step(t, PnlRow);
    assert u.barriers[o] == Wake(s.barriers[o], s.pnl.epoch);
    var rest := GatedArms(u, o);
    Prepend(t, PnlRow, rest);
    Prepend(s, PnlPollBegins, [PnlRow] + rest);
    labels := [PnlPollBegins] + ([PnlRow] + rest);
  }

  lemma {:induction false} DrainedArms(s: State, o: Owner) returns (labels: seq<Label>)
    requires Armable(s, o) && (s.barriers[o].phase.Seeding? || s.barriers[o].phase.AwaitingPnl?)
    ensures Exposes(s, labels)
  {
    if s.barriers[o].phase.Seeding? {
      SeededArms(s, o);
      labels := [SeedEnds(o, true)];
    } else if s.barriers[o].phase.woken {
      labels := GatedArms(s, o);
    } else {
      labels := AwaitingArms(s, o);
    }
  }

  /** Whatever phase it is in, such a barrier can go on to arm the plant. */
  lemma {:induction false} OutdatedArms(s: State, o: Owner) returns (labels: seq<Label>)
    requires Armable(s, o)
    ensures Exposes(s, labels)
  {
    if s.barriers[o].phase.Draining? {
      var a := DrainEnds(o, true);
      var rest := DrainedArms(Step(s, a), o);
      Prepend(s, a, rest);
      labels := [a] + rest;
    } else {
      labels := DrainedArms(s, o);
    }
  }

  /** After `begin_connect` the outdated barrier is in place to arm, at the latest once a poller runs. */
  lemma {:induction false} RiskyExposes(s: State, a: Label, o: Owner) returns (labels: seq<Label>)
    requires Enabled(s, a) && Begins(s, a) && Outdated(s, a, o)
    ensures Exposes(Step(s, a), labels)
  {
    BegunKeeps(s, a, o);
    var t := Step(s, a);
    if PollAlive(t, o) {
      labels := OutdatedArms(t, o);
    } else {
      var b := SubscribeEnds(BegunBy(a), true);
      var rest := OutdatedArms(Step(t, b), o);
      Prepend(t, b, rest);
      labels := [b] + rest;
    }
  }

  lemma {:induction false} BegunKeeps(s: State, a: Label, o: Owner)
    requires Enabled(s, a) && Begins(s, a) && Outdated(s, a, o)
    ensures var t := Step(s, a);
      && t.plant == Plant.Connecting && t.loss.at == LossAfter(s, a)
      && o in t.barriers && t.barriers[o] == s.barriers[o]
      && (PollAlive(t, o) || (a.BeginBarrier? && a.owner in t.barriers && t.barriers[a.owner].phase.Subscribing?))
  {
    if a.PollBatch? {
      LossIsNoticed(s.plant, a.rows);
    }
  }

  /**
   The exact condition, at any state a cautious run reaches: a step can be followed by orders on
   a drain older than the last loss, with no risky step after it, if and only if the step is risky.
   */
  lemma {:induction false} UnsafeExactlyWhen(s: State, a: Label)
    requires Inv(s) && Enabled(s, a)
    ensures Risky(s, a) <==> exists labels :: Exposes(Step(s, a), labels)
  {
    if Risky(s, a) {
      var o :| Outdated(s, a, o);
      var labels := RiskyExposes(s, a, o);
    } else {
      StepHolds(s, a);
      forall labels | Exposes(Step(s, a), labels)
        ensures false
      {
        RunHolds(Step(s, a), labels);
      }
    }
  }

  /** A reconnect that has drained and only has to seed its account. */
  ghost function Drained(): State {
    var s := Step(Step(Init(false), BeginBarrier(Reconnect)), SubscribeEnds(Reconnect, true));
    s.(now := 4, barriers := map[Reconnect := Barrier(Seeding, 1, 2, 0, false, None)])
  }

  /** The run that gets there, continued. */
  lemma {:induction false} ReconnectDrains(after: seq<Label>) returns (labels: seq<Label>)
    requires Runnable(Drained(), after)
    ensures Runnable(Init(false), labels) && Run(Init(false), labels) == Run(Drained(), after)
  {
    var a, b, c := BeginBarrier(Reconnect), SubscribeEnds(Reconnect, true), DrainEnds(Reconnect, true);
    var s1 := Step(Init(false), a);
    var s2 := Step(s1, b);
    assert s1.barriers == map[Reconnect := Barrier(Subscribing, 1, 1, 0, false, None)];
    assert s2.barriers == map[Reconnect := Barrier(Draining, 1, 2, 0, false, None)];
    assert Step(s2, c).barriers == map[Reconnect := Barrier(Seeding, 1, 2, 0, false, None)];
    assert Step(s2, c) == Drained();
    var l2 := [c] + after;
    var l1 := [b] + l2;
    labels := [a] + l1;
    assert l2[1..] == after && l1[1..] == l2 && labels[1..] == l1;
    assert Runnable(s2, l2) && Run(s2, l2) == Run(Drained(), after);
    assert Runnable(s1, l1) && Run(s1, l1) == Run(s2, l2);
  }

  /**
   The input: a gap read while a reconnect barrier is past its drain opens a second barrier on
   the same `Connecting` state, and a run from the start ends with orders on the older drain.
   */
  lemma {:induction false} OverlapBreaksIt() returns (labels: seq<Label>)
    ensures Runnable(Init(false), labels) && Unsafe(Run(Init(false), labels))
  {
    var s, gap := Drained(), PollBatch([GapRow]);
    GapIsLossy();
    assert ProcessBatch(s.plant, [GapRow]) == OneLost(ProcessBatch(s.plant, []));
    assert Outdated(s, gap, Reconnect);
    var after := RiskyExposes(s, gap, Reconnect);
    assert ([gap] + after)[1..] == after;
    labels := ReconnectDrains([gap] + after);
  }

  lemma {:induction false} GapIsLossy()
    ensures Lossy([GapRow])
  {
    assert [GapRow][0].GapRow?;
  }
}
