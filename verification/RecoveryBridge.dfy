/**
 The transport recovery bridge: single-flight restores with bounded retry, a pending
 generation behind a running one, and cancellation by a new break. Each step is
 what runs on the client's loop between two await points.
 */
module RecoveryBridge {
  import opened Basics

  /** Where a restore task is suspended. */
  datatype Where = Spawned | Restoring(attempt: nat) | Sleeping(attempt: nat)

  datatype Task = Task(generation: nat, at: Where, cancelled: bool)

  /**
   `tasks` holds the tasks not yet done; `task` is the bridge's own handle, which may name
   a finished one. `asked`, `top` and `exhausted` record, since the last break, the highest
   generation asked for, the highest that reached the loop, and the generations whose attempts
   all failed.
   */
  datatype State = State(
    tasks: map<nat, Task>, task: Option<nat>, nextId: nat,
    pending: nat, lastGeneration: nat, maxAttempts: nat,
    asked: nat, top: nat, exhausted: set<nat>)

  datatype Label =
    | Schedule(generation: nat)
    | ScheduleLost(generation: nat)   // the client loop is missing or refuses the hop
    | Starts(id: nat)
    | RestoreEnds(id: nat, ok: bool)
    | SleepEnds(id: nat)
    | Unwinds(id: nat)
    | Break
    | Detach

  function Init(maxAttempts: nat): State {
    State(map[], None, 0, 0, 0, maxAttempts, 0, 0, {})
  }

  function Max(a: nat, b: nat): nat { if a >= b then a else b }

  /** The bridge's task exists and is not done. */
  predicate Busy(s: State) {
    s.task.Some? && s.task.value in s.tasks
  }

  predicate Enabled(s: State, a: Label) {
    match a
    case Starts(id) => id in s.tasks && !s.tasks[id].cancelled && s.tasks[id].at.Spawned?
    case RestoreEnds(id, _) => id in s.tasks && !s.tasks[id].cancelled && s.tasks[id].at.Restoring?
    case SleepEnds(id) => id in s.tasks && !s.tasks[id].cancelled && s.tasks[id].at.Sleeping?
    case Unwinds(id) => id in s.tasks && s.tasks[id].cancelled
    case _ => true
  }

  /** `_start`, on the loop. */
  function DoSchedule(s: State, g: nat): State {
    var t := s.(asked := Max(s.asked, g), top := Max(s.top, g));
    if g <= s.lastGeneration then t
    else if Busy(s) then t.(pending := Max(s.pending, g))
    else t.(tasks := s.tasks[s.nextId := Task(g, Spawned, false)], task := Some(s.nextId), nextId := s.nextId + 1)
  }

  /** The top of the `_run` loop: attempt the generation unless it is already restored. */
  function Enter(s: State, id: nat, g: nat): State
    decreases s.pending
  {
    if g <= s.lastGeneration then Leave(s, id, g)
    else if s.maxAttempts == 0 then Leave(s.(exhausted := s.exhausted + {g}), id, g)
    else s.(tasks := s.tasks[id := Task(g, Restoring(1), false)])
  }

  /** The bottom of the `_run` loop: take the pending generation, or finish. */
  function Leave(s: State, id: nat, g: nat): State
    decreases s.pending, 0
  {
    var t := s.(pending := 0);
    if s.pending <= Max(g, s.lastGeneration) then t.(tasks := s.tasks - {id})
    else Enter(t, id, s.pending)
  }

  function DoRestoreEnds(s: State, id: nat, ok: bool): State
    requires Enabled(s, RestoreEnds(id, ok))
  {
    var g, n := s.tasks[id].generation, s.tasks[id].at.attempt;
    if ok then Leave(s.(lastGeneration := g), id, g)
    else if n < s.maxAttempts then s.(tasks := s.tasks[id := Task(g, Sleeping(n), false)])
    else Leave(s.(exhausted := s.exhausted + {g}), id, g)
  }

  /** A break or a detach: forget what is queued and cancel what runs. */
  function Abandon(s: State): State {
    s.(pending := 0, task := if Busy(s) then None else s.task, asked := 0, top := 0, exhausted := {},
       tasks := if Busy(s) then s.tasks[s.task.value := s.tasks[s.task.value].(cancelled := true)] else s.tasks)
  }

  function Step(s: State, a: Label): State
    requires Enabled(s, a)
  {
    match a
    case Schedule(g) => DoSchedule(s, g)
    case ScheduleLost(g) => s.(asked := Max(s.asked, g))
    case Starts(id) => Enter(s, id, s.tasks[id].generation)
    case RestoreEnds(id, ok) => DoRestoreEnds(s, id, ok)
    case SleepEnds(id) =>
      s.(tasks := s.tasks[id := Task(s.tasks[id].generation, Restoring(s.tasks[id].at.attempt + 1), false)])
    case Unwinds(id) => s.(tasks := s.tasks - {id})
    case Break => Abandon(s)
    case Detach => Abandon(s).(lastGeneration := 0, task := None)
  }

  // --- what every run keeps --------------------------------------------------------------

  /** Single flight: the only task that is not cancelled is the bridge's own. */
  ghost predicate SingleFlight(s: State) {
    && (forall id :: id in s.tasks ==> id < s.nextId)
    && (s.task.Some? ==> s.task.value < s.nextId)
    && (forall id :: id in s.tasks && !s.tasks[id].cancelled ==> s.task == Some(id))
    && (Busy(s) ==> !s.tasks[s.task.value].cancelled)
  }

  /** A running restore is for a generation not yet restored, within its attempts. */
  ghost predicate Bounded(s: State, id: nat)
    requires id in s.tasks
  {
    var t := s.tasks[id];
    && t.generation <= s.top
    && (!t.at.Spawned? ==> t.generation > s.lastGeneration)
    && (t.at.Restoring? ==> 1 <= t.at.attempt <= s.maxAttempts)
    && (t.at.Sleeping? ==> 1 <= t.at.attempt < s.maxAttempts)
  }

  /** Generation `g` is restored, exhausted, running or pending. */
  ghost predicate Accounted(s: State, g: nat) {
    || g <= s.lastGeneration
    || g in s.exhausted
    || (Busy(s) && (s.tasks[s.task.value].generation == g || s.pending == g))
  }

  ghost predicate Inv(s: State) {
    && SingleFlight(s)
    && (Busy(s) ==> Bounded(s, s.task.value))
    && s.pending <= s.top
    && (!Busy(s) ==> s.pending == 0)
    && s.top <= s.asked && (forall g :: g in s.exhausted ==> g <= s.top)
    && Accounted(s, s.top)
  }

  lemma {:induction false} InitHolds(maxAttempts: nat)
    ensures Inv(Init(maxAttempts))
  {
  }

  /** What holds at the bottom of the loop: the generation just handled is settled. */
  ghost predicate Settled(s: State, id: nat, g: nat) {
    && SingleFlight(s) && s.task == Some(id) && id in s.tasks && !s.tasks[id].cancelled
    && g <= s.top && s.pending <= s.top && s.top <= s.asked && (forall x :: x in s.exhausted ==> x <= s.top)
    && (g <= s.lastGeneration || g in s.exhausted)
    && (s.top <= s.lastGeneration || s.top in s.exhausted || s.pending == s.top)
  }

  lemma {:induction false} LeaveHolds(s: State, id: nat, g: nat)
    requires Settled(s, id, g)
    ensures Inv(Leave(s, id, g)) && Leave(s, id, g).lastGeneration == s.lastGeneration
    decreases s.pending, 0
  {
    if s.pending > Max(g, s.lastGeneration) {
      EnterHolds(s.(pending := 0), id, s.pending);
    }
  }

  lemma {:induction false} EnterHolds(s: State, id: nat, g: nat)
    requires SingleFlight(s) && s.task == Some(id) && id in s.tasks && !s.tasks[id].cancelled
    requires g <= s.top && s.pending <= s.top && s.top <= s.asked && forall x :: x in s.exhausted ==> x <= s.top
    requires s.top <= s.lastGeneration || s.top in s.exhausted || g == s.top || s.pending == s.top
    ensures Inv(Enter(s, id, g)) && Enter(s, id, g).lastGeneration == s.lastGeneration
    decreases s.pending
  {
    if g <= s.lastGeneration {
      LeaveHolds(s, id, g);
    } else if s.maxAttempts == 0 {
      LeaveHolds(s.(exhausted := s.exhausted + {g}), id, g);
    }
  }

  lemma {:induction false} RestoreEndsHolds(s: State, id: nat, ok: bool)
    requires Inv(s) && Enabled(s, RestoreEnds(id, ok))
    ensures Inv(Step(s, RestoreEnds(id, ok)))
    ensures Step(s, RestoreEnds(id, ok)).lastGeneration >= s.lastGeneration
  {
    var g := s.tasks[id].generation;
    if ok {
      LeaveHolds(s.(lastGeneration := g), id, g);
    } else if s.tasks[id].at.attempt >= s.maxAttempts {
      LeaveHolds(s.(exhausted := s.exhausted + {g}), id, g);
    }
  }

  lemma {:induction false} AbandonHolds(s: State, a: Label)
    requires Inv(s) && (a.Break? || a.Detach?)
    ensures Inv(Step(s, a))
  {
  }

  lemma {:induction false} ScheduleHolds(s: State, g: nat)
    requires Inv(s)
    ensures Inv(Step(s, Schedule(g))) && Inv(Step(s, ScheduleLost(g)))
  {
  }

  /** Every step keeps the invariant, and only a detach lets `last_generation` go down. */
  lemma {:induction false} StepHolds(s: State, a: Label)
    requires Inv(s) && Enabled(s, a)
    ensures Inv(Step(s, a))
    ensures !a.Detach? ==> Step(s, a).lastGeneration >= s.lastGeneration
  {
    match a
    case Schedule(g) => ScheduleHolds(s, g);
    case ScheduleLost(g) => ScheduleHolds(s, g);
    case Starts(id) => EnterHolds(s, id, s.tasks[id].generation);
    case RestoreEnds(id, ok) => RestoreEndsHolds(s, id, ok);
    case SleepEnds(id) =>
    case Unwinds(id) =>
    case Break => AbandonHolds(s, a);
    case Detach => AbandonHolds(s, a);
  }

  ghost predicate Runnable(s: State, labels: seq<Label>)
    decreases |labels|
  {
    labels == [] || (Enabled(s, labels[0]) && Runnable(Step(s, labels[0]), labels[1..]))
  }

  function Run(s: State, labels: seq<Label>): State
    requires Runnable(s, labels)
    decreases |labels|
  {
    if labels == [] then s else Run(Step(s, labels[0]), labels[1..])
  }

  lemma {:induction false} RunHolds(s: State, labels: seq<Label>)
    requires Inv(s) && Runnable(s, labels)
    ensures Inv(Run(s, labels))
    ensures (forall i :: 0 <= i < |labels| ==> !labels[i].Detach?) ==> Run(s, labels).lastGeneration >= s.lastGeneration
    decreases |labels|
  {
    if labels != [] {
      StepHolds(s, labels[0]);
      RunHolds(Step(s, labels[0]), labels[1..]);
    }
  }

  /**
   Over every run: at most one uncancelled restore is in flight, the restored generation
   only grows between detaches, and the highest generation asked for since the last break is
   restored, exhausted, running or pending, exactly when it reached the loop or is old already.
   */
  lemma {:induction false} BridgeTheorem(maxAttempts: nat, before: seq<Label>, after: seq<Label>)
    requires Runnable(Init(maxAttempts), before) && Runnable(Run(Init(maxAttempts), before), after)
    requires forall i :: 0 <= i < |after| ==> !after[i].Detach?
    ensures var s := Run(Init(maxAttempts), before);
      var t := Run(s, after);
      && t.lastGeneration >= s.lastGeneration
      && Accounted(t, t.top)
      && (Accounted(t, t.asked) <==> t.asked == t.top || t.asked <= t.lastGeneration)
      && (forall i, j :: i in t.tasks && j in t.tasks && !t.tasks[i].cancelled && !t.tasks[j].cancelled ==> i == j)
  {
    InitHolds(maxAttempts);
    RunHolds(Init(maxAttempts), before);
    RunHolds(Run(Init(maxAttempts), before), after);
  }

  // --- what exhausts a generation ----------------------------------------------------------------

  /** A task at work on a generation. */
  datatype Work = Work(id: nat, generation: nat)

  /** How often, since the last break, each work failed and slept before the next attempt. */
  datatype Tally = Tally(failed: map<Work, nat>, slept: map<Work, nat>)

  function Times(m: map<Work, nat>, w: Work): nat {
    if w in m then m[w] else 0
  }

  function Counted(n: Tally, s: State, a: Label): Tally {
    match a
    case RestoreEnds(id, false) =>
      if id !in s.tasks then n
      else
        var w := Work(id, s.tasks[id].generation);
        n.(failed := n.failed[w := Times(n.failed, w) + 1])
    case SleepEnds(id) =>
      if id !in s.tasks then n
      else
        var w := Work(id, s.tasks[id].generation);
        n.(slept := n.slept[w := Times(n.slept, w) + 1])
    case Break => Tally(map[], map[])
    case Detach => Tally(map[], map[])
    case _ => n
  }

  ghost function CountedAll(n: Tally, s: State, labels: seq<Label>): Tally
    requires Runnable(s, labels)
    decreases |labels|
  {
    if labels == [] then n else CountedAll(Counted(n, s, labels[0]), Step(s, labels[0]), labels[1..])
  }

  /** A work that was given up: every attempt failed, with a sleep between each two. */
  ghost predicate GivenUp(n: Tally, s: State, w: Work) {
    Times(n.failed, w) == s.maxAttempts && Times(n.slept, w) == if s.maxAttempts == 0 then 0 else s.maxAttempts - 1
  }

  /** Where the running task is in its attempts is what the run says of its failures and sleeps. */
  ghost predicate InStep(n: Tally, s: State, id: nat)
    requires id in s.tasks
  {
    var w, at := Work(id, s.tasks[id].generation), s.tasks[id].at;
    match at
    case Spawned => w !in n.failed && w !in n.slept
    case Restoring(k) => k >= 1 && Times(n.failed, w) == k - 1 && Times(n.slept, w) == k - 1
    case Sleeping(k) => k >= 1 && Times(n.failed, w) == k && Times(n.slept, w) == k - 1
  }

  /** Nothing is counted for works that have not begun. */
  ghost predicate Untouched(n: Tally, s: State) {
    && (forall w :: w in n.failed || w in n.slept ==> w.id < s.nextId)
    && (Busy(s) ==> forall g :: g > s.tasks[s.task.value].generation ==>
                      Work(s.task.value, g) !in n.failed && Work(s.task.value, g) !in n.slept)
  }

  ghost predicate Tallied(n: Tally, s: State) {
    && Untouched(n, s)
    && (Busy(s) ==> InStep(n, s, s.task.value))
    && (forall g :: g in s.exhausted ==> exists id :: GivenUp(n, s, Work(id, g)))
  }

  /** The top of the loop with a generation nothing is counted for yet. */
  ghost predicate Fresh(n: Tally, id: nat, g: nat) {
    forall x :: x >= g ==> Work(id, x) !in n.failed && Work(id, x) !in n.slept
  }

  lemma {:induction false} EnterTallies(n: Tally, s: State, id: nat, g: nat)
    requires s.task == Some(id) && id in s.tasks && id < s.nextId
    requires (forall w :: w in n.failed || w in n.slept ==> w.id < s.nextId) && Fresh(n, id, g)
    requires forall x :: x in s.exhausted ==> exists i :: GivenUp(n, s, Work(i, x))
    ensures Tallied(n, Enter(s, id, g))
    decreases s.pending
  {
    if g <= s.lastGeneration {
      LeaveTallies(n, s, id, g);
    } else if s.maxAttempts == 0 {
      assert GivenUp(n, s, Work(id, g));
      LeaveTallies(n, s.(exhausted := s.exhausted + {g}), id, g);
    }
  }

  lemma {:induction false} LeaveTallies(n: Tally, s: State, id: nat, g: nat)
    requires s.task == Some(id) && id in s.tasks && id < s.nextId
    requires (forall w :: w in n.failed || w in n.slept ==> w.id < s.nextId) && Fresh(n, id, g + 1)
    requires forall x :: x in s.exhausted ==> exists i :: GivenUp(n, s, Work(i, x))
    ensures Tallied(n, Leave(s, id, g))
    decreases s.pending, 0
  {
    if s.pending > Max(g, s.lastGeneration) {
      EnterTallies(n, s.(pending := 0), id, s.pending);
    }
  }

  /** A failed attempt with attempts left goes to sleep on the same generation; the last one gives it up. */
  lemma {:induction false} FailureTallies(n: Tally, s: State, id: nat)
    requires Inv(s) && Tallied(n, s) && Enabled(s, RestoreEnds(id, false))
    ensures Tallied(Counted(n, s, RestoreEnds(id, false)), Step(s, RestoreEnds(id, false)))
  {
    var g, k := s.tasks[id].generation, s.tasks[id].at.attempt;
    var m := Counted(n, s, RestoreEnds(id, false));
    forall x | x in s.exhausted
      ensures exists i :: GivenUp(m, s, Work(i, x))
    {
      var i :| GivenUp(n, s, Work(i, x));
      if Work(i, x) == Work(id, g) {
        assert false;
      }
      assert GivenUp(m, s, Work(i, x));
    }
    if k >= s.maxAttempts {
      assert GivenUp(m, s, Work(id, g));
      LeaveTallies(m, s.(exhausted := s.exhausted + {g}), id, g);
    }
  }

  lemma {:induction false} SleepTallies(n: Tally, s: State, id: nat)
    requires Inv(s) && Tallied(n, s) && Enabled(s, SleepEnds(id))
    ensures Tallied(Counted(n, s, SleepEnds(id)), Step(s, SleepEnds(id)))
  {
    var m := Counted(n, s, SleepEnds(id));
    forall x | x in s.exhausted
      ensures exists i :: GivenUp(m, s, Work(i, x))
    {
      var i :| GivenUp(n, s, Work(i, x));
      if Work(i, x) == Work(id, s.tasks[id].generation) {
        assert false;
      }
      assert GivenUp(m, s, Work(i, x));
    }
  }

  lemma {:induction false} StepTallies(n: Tally, s: State, a: Label)
    requires Inv(s) && Tallied(n, s) && Enabled(s, a)
    ensures Tallied(Counted(n, s, a), Step(s, a))
  {
    match a
    case Schedule(g) => ScheduleTallies(n, s, g);
    case ScheduleLost(g) => QuietTallies(n, s, Step(s, a));
    case Starts(id) => EnterTallies(n, s, id, s.tasks[id].generation);
    case RestoreEnds(id, ok) =>
      if ok {
        LeaveTallies(n, s.(lastGeneration := s.tasks[id].generation), id, s.tasks[id].generation);
      } else {
        FailureTallies(n, s, id);
      }
    case SleepEnds(id) => SleepTallies(n, s, id);
    case Unwinds(id) => QuietTallies(n, s, Step(s, a));
    case Break =>
    case Detach =>
  }

  /** A step that leaves the running task and what is exhausted alone. */
  lemma {:induction false} QuietTallies(n: Tally, s: State, t: State)
    requires Tallied(n, s) && t.nextId == s.nextId && t.maxAttempts == s.maxAttempts && t.exhausted == s.exhausted
    requires t.task == s.task && (Busy(t) ==> Busy(s) && t.tasks[t.task.value] == s.tasks[s.task.value])
    ensures Tallied(n, t)
  {
    forall g | g in t.exhausted
      ensures exists id :: GivenUp(n, t, Work(id, g))
    {
      var id :| GivenUp(n, s, Work(id, g));
      assert GivenUp(n, t, Work(id, g));
    }
  }

  lemma {:induction false} ScheduleTallies(n: Tally, s: State, g: nat)
    requires Inv(s) && Tallied(n, s)
    ensures Tallied(n, Step(s, Schedule(g)))
  {
    var t := Step(s, Schedule(g));
    forall x | x in t.exhausted
      ensures exists id :: GivenUp(n, t, Work(id, x))
    {
      var id :| GivenUp(n, s, Work(id, x));
      assert GivenUp(n, t, Work(id, x));
    }
  }

  lemma {:induction false} RunTallies(n: Tally, s: State, labels: seq<Label>)
    requires Inv(s) && Tallied(n, s) && Runnable(s, labels)
    ensures Tallied(CountedAll(n, s, labels), Run(s, labels)) && Run(s, labels).maxAttempts == s.maxAttempts
    decreases |labels|
  {
    if labels != [] {
      StepTallies(n, s, labels[0]);
      StepHolds(s, labels[0]);
      AttemptsFixed(s, labels[0]);
      RunTallies(Counted(n, s, labels[0]), Step(s, labels[0]), labels[1..]);
    }
  }

  lemma {:induction false} AttemptsFixed(s: State, a: Label)
    requires Enabled(s, a)
    ensures Step(s, a).maxAttempts == s.maxAttempts
  {
    match a
    case Starts(id) => EnterFixed(s, id, s.tasks[id].generation);
    case RestoreEnds(id, ok) =>
      var g := s.tasks[id].generation;
      LeaveFixed(s.(lastGeneration := g), id, g);
      LeaveFixed(s.(exhausted := s.exhausted + {g}), id, g);
    case _ =>
  }

  lemma {:induction false} EnterFixed(s: State, id: nat, g: nat)
    ensures Enter(s, id, g).maxAttempts == s.maxAttempts
    decreases s.pending
  {
    if g <= s.lastGeneration {
      LeaveFixed(s, id, g);
    } else if s.maxAttempts == 0 {
      LeaveFixed(s.(exhausted := s.exhausted + {g}), id, g);
    }
  }

  lemma {:induction false} LeaveFixed(s: State, id: nat, g: nat)
    ensures Leave(s, id, g).maxAttempts == s.maxAttempts
    decreases s.pending, 0
  {
    if s.pending > Max(g, s.lastGeneration) {
      EnterFixed(s.(pending := 0), id, s.pending);
    }
  }

  /**
   What exhausts a generation, told from the run: since the last break one task failed on it
   exactly as often as there are attempts, and slept between each two. A failure before that leaves
   the task in flight on the same generation.
   */
  lemma {:induction false} ExhaustedOnlyByAttempts(maxAttempts: nat, labels: seq<Label>, g: nat)
    requires Runnable(Init(maxAttempts), labels) && g in Run(Init(maxAttempts), labels).exhausted
    ensures var n := CountedAll(Tally(map[], map[]), Init(maxAttempts), labels);
      exists id :: Times(n.failed, Work(id, g)) == maxAttempts
                   && Times(n.slept, Work(id, g)) == if maxAttempts == 0 then 0 else maxAttempts - 1
  {
    InitHolds(maxAttempts);
    RunTallies(Tally(map[], map[]), Init(maxAttempts), labels);
    var n, s := CountedAll(Tally(map[], map[]), Init(maxAttempts), labels), Run(Init(maxAttempts), labels);
    var id :| GivenUp(n, s, Work(id, g));
  }

  lemma {:induction false} FailureRetries(maxAttempts: nat, labels: seq<Label>, id: nat)
    requires Runnable(Init(maxAttempts), labels) && Enabled(Run(Init(maxAttempts), labels), RestoreEnds(id, false))
    ensures var s := Run(Init(maxAttempts), labels);
      var n, t := CountedAll(Tally(map[], map[]), Init(maxAttempts), labels), Step(s, RestoreEnds(id, false));
      var w := Work(id, s.tasks[id].generation);
      Times(n.failed, w) + 1 < maxAttempts ==>
        && Busy(t) && t.task == Some(id) && t.tasks[id].generation == w.generation && t.tasks[id].at.Sleeping?
        && t.exhausted == s.exhausted && t.lastGeneration == s.lastGeneration
  {
    InitHolds(maxAttempts);
    RunTallies(Tally(map[], map[]), Init(maxAttempts), labels);
    RunHolds(Init(maxAttempts), labels);
  }

  /** A schedule on the loop: nothing for an old generation, queued behind a running restore, else a task of its own. */
  lemma {:induction false} ScheduleTable(s: State, g: nat)
    ensures var t := Step(s, Schedule(g));
      && (g <= s.lastGeneration ==> t.tasks == s.tasks && t.task == s.task && t.pending == s.pending)
      && (g > s.lastGeneration && Busy(s) ==>
            t.tasks == s.tasks && t.task == s.task && t.pending == if g > s.pending then g else s.pending)
      && (g > s.lastGeneration && !Busy(s) ==>
            t.task.Some? && t.tasks == s.tasks[t.task.value := Task(g, Spawned, false)] && t.pending == s.pending)
      && t.lastGeneration == s.lastGeneration && t.exhausted == s.exhausted
  {
  }

  /** Nothing at the start; a break or a detach cancels what runs and forgets what is queued. */
  lemma {:induction false} BreakTable(s: State, a: Label, maxAttempts: nat)
    requires a.Break? || a.Detach?
    ensures Init(maxAttempts).tasks == map[] && Init(maxAttempts).task == None && Init(maxAttempts).pending == 0
    ensures Init(maxAttempts).lastGeneration == 0 && Init(maxAttempts).exhausted == {} && Init(maxAttempts).asked == 0
    ensures var t := Step(s, a);
      && t.pending == 0 && !Busy(t) && t.tasks.Keys == s.tasks.Keys
      && t.asked == 0 && t.top == 0 && t.exhausted == {} && (a.Detach? ==> t.task == None)
      && (Busy(s) ==> t.tasks[s.task.value].cancelled)
      && (forall id :: id in s.tasks && s.task != Some(id) ==> t.tasks[id] == s.tasks[id])
      && t.lastGeneration == if a.Detach? then 0 else s.lastGeneration
  {
  }

  /** A cancelled task unwinds and is gone; a sleep over, the next attempt starts on the same generation. */
  lemma {:induction false} TaskTable(s: State, id: nat)
    requires id in s.tasks
    ensures s.tasks[id].cancelled ==> Enabled(s, Unwinds(id)) && Step(s, Unwinds(id)) == s.(tasks := s.tasks - {id})
    ensures s.tasks[id].cancelled ==>
              !Enabled(s, Starts(id)) && !Enabled(s, SleepEnds(id)) && forall ok :: !Enabled(s, RestoreEnds(id, ok))
    ensures !s.tasks[id].cancelled && s.tasks[id].at.Sleeping? ==>
              && Enabled(s, SleepEnds(id))
              && Step(s, SleepEnds(id)).tasks
                 == s.tasks[id := Task(s.tasks[id].generation, Restoring(s.tasks[id].at.attempt + 1), false)]
  {
  }

  /** The input: a resume that finds no client loop is not restored, running, pending or exhausted. */
  lemma {:induction false} LostScheduleIsDropped(maxAttempts: nat)
    ensures var s := Step(Init(maxAttempts), ScheduleLost(1)); s.asked == 1 && !Accounted(s, s.asked)
  {
  }
}
