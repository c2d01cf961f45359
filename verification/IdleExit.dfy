/**
 Idle exit after the last peer leaves: peers attach and detach concurrently with one
 waiter that claims the exit. A critical section of the lock is one step; a thread's
 `notify_waiters` after its critical section is a step of its own.
 */
module IdleExit {
  import opened Basics

  /** Where the waiter is in `wait_until_should_exit`. */
  datatype Waiter =
    | Registering                  // about to register for a wakeup
    | Reading                      // registered, about to read the deadline under the lock
    | BlockedUnarmed               // read no deadline: waits for a notification
    | Deciding(deadline: nat)      // read a deadline, about to look at the clock
    | BlockedArmed(deadline: nat)  // waits for the deadline or a notification
    | Claiming                     // deadline passed: about to take the lock
    | Confirming                   // flag up, still holding the lock for the final peer check
    | Returned

  /**
   `grace` is `None` for the `Never` policy. `attaching` counts callers past the first
   flag check, `owedAttach` and `owedDetach` those that still have to notify. `registered`
   and `delivered` are the waiter's wakeup slot. `lastArm` is when the last peer last left.
   */
  datatype State = State(
    grace: Option<nat>, now: nat,
    peers: nat, deadline: Option<nat>, shuttingDown: bool,
    attaching: nat, owedAttach: nat, owedDetach: nat,
    waiter: Waiter, delivered: bool,
    lastArm: nat, claimedAt: Option<nat>)

  datatype Label =
    | Tick
    | AttachCheck          // the flag check before the lock
    | AttachLocked         // the critical section of `peer_attached`
    | AttachNotify
    | DetachLocked         // the critical section of `peer_detached`
    | DetachNotify
    | WaiterStep

  function Init(grace: Option<nat>): State {
    State(grace, 0, 0, None, false, 0, 0, 0, Registering, false, 0, None)
  }

  /** The waiter runs only under an `After` policy; a blocked one needs its wakeup. */
  predicate WaiterReady(s: State) {
    s.grace.Some? &&
    match s.waiter
    case BlockedUnarmed => s.delivered
    case BlockedArmed(d) => s.delivered || s.now >= d
    case Returned => false
    case _ => true
  }

  predicate Enabled(s: State, a: Label) {
    match a
    case AttachLocked => s.attaching > 0 && !s.waiter.Confirming?
    case DetachLocked => !s.waiter.Confirming?
    case AttachNotify => s.owedAttach > 0
    case DetachNotify => s.owedDetach > 0
    case WaiterStep => WaiterReady(s)
    case _ => true
  }

  /** The claim: peers and the deadline are read again under the lock before the flag goes up. */
  function Claim(s: State): State {
    if s.peers != 0 then s.(deadline := None, waiter := Registering)
    else if s.deadline.Some? && s.deadline.value <= s.now then
      s.(deadline := None, shuttingDown := true, claimedAt := Some(s.now), waiter := Confirming)
    else s.(waiter := Registering)
  }

  /** The final peer check, under the same lock. */
  function Confirm(s: State): State {
    if s.peers != 0 then s.(shuttingDown := false, claimedAt := None, waiter := Registering)
    else s.(waiter := Returned)
  }

  function StepWaiter(s: State): State {
    match s.waiter
    case Registering => s.(waiter := Reading, delivered := false)
    case Reading => s.(waiter := if s.deadline.None? then BlockedUnarmed else Deciding(s.deadline.value))
    case BlockedUnarmed => s.(waiter := Registering)
    case Deciding(d) => s.(waiter := if s.now < d then BlockedArmed(d) else Claiming)
    case BlockedArmed(_) => s.(waiter := Registering)
    case Claiming => Claim(s)
    case Confirming => Confirm(s)
    case Returned => s
  }

  /** `notify_waiters` reaches the waiter only while it is registered. */
  function Notify(s: State): State {
    s.(delivered := s.delivered || !s.waiter.Registering?)
  }

  function Step(s: State, a: Label): State
    requires Enabled(s, a)
  {
    match a
    case Tick => s.(now := s.now + 1)
    case AttachCheck => if s.shuttingDown then s else s.(attaching := s.attaching + 1)
    case AttachLocked =>
      var t := s.(attaching := s.attaching - 1);
      if s.shuttingDown then t
      else t.(peers := s.peers + 1, deadline := None, owedAttach := s.owedAttach + 1)
    case AttachNotify => Notify(s).(owedAttach := s.owedAttach - 1)
    case DetachLocked =>
      var peers := if s.peers > 0 then s.peers - 1 else 0;
      var t := s.(peers := peers, owedDetach := s.owedDetach + 1);
      if peers == 0 && s.grace.Some? then t.(deadline := Some(s.now + s.grace.value), lastArm := s.now) else t
    case DetachNotify => Notify(s).(owedDetach := s.owedDetach - 1)
    case WaiterStep => StepWaiter(s)
  }

  // --- what every interleaving keeps --------------------------------------------------------

  /** A deadline is armed only with no peers, at the last arming detach plus the grace. */
  ghost predicate DeadlineIsHonest(s: State) {
    && s.lastArm <= s.now
    && (s.deadline.Some? ==> s.grace.Some? && s.peers == 0 && s.deadline.value == s.lastArm + s.grace.value)
  }

  /** Once the exit is claimed the flag stays, no peer is counted and none attaches. */
  ghost predicate ClaimIsFinal(s: State) {
    && (s.claimedAt.Some? <==> s.shuttingDown)
    && (s.claimedAt.Some? <==> s.waiter.Confirming? || s.waiter.Returned?)
    && (s.shuttingDown ==> s.peers == 0)
  }

  /** A waiter blocked without a deadline that is armed meanwhile has a wakeup, or one is owed to it. */
  ghost predicate NoLostWakeup(s: State) {
    s.waiter.BlockedUnarmed? && s.deadline.Some? ==> s.delivered || s.owedDetach > 0
  }

  /** The deadline a waiter sleeps on is not after the armed one: it wakes in time. */
  ghost predicate WakesInTime(s: State) {
    && (s.waiter.BlockedArmed? && s.deadline.Some? ==> s.waiter.deadline <= s.deadline.value)
    && (s.waiter.Deciding? && s.deadline.Some? ==> s.waiter.deadline <= s.deadline.value)
    && (s.grace.Some? && (s.waiter.BlockedArmed? || s.waiter.Deciding?) ==> s.waiter.deadline <= s.now + s.grace.value)
  }

  ghost predicate Inv(s: State) {
    DeadlineIsHonest(s) && ClaimIsFinal(s) && NoLostWakeup(s) && WakesInTime(s)
        && (s.grace.None? ==> s.waiter.Registering?)
  }

  lemma {:induction false} StepHolds(s: State, a: Label)
    requires Inv(s) && Enabled(s, a)
    ensures Inv(Step(s, a))
    ensures s.claimedAt.Some? ==> Step(s, a).claimedAt == s.claimedAt
    ensures Step(s, a).claimedAt.Some? && s.claimedAt.None? ==> s.grace.Some? && s.now >= s.lastArm + s.grace.value
  {
  }

  ghost predicate Runnable(s: State, labels: seq<Label>)
    decreases |labels|
  {
    labels == [] || (Enabled(s, labels[0]) && Runnable(Step(s, labels[0]), labels[1..]))
  }

  function Run(s: State, labels: seq<Label>): State
    requires Runnable(s, labels)
    decreases |labels|
  {
    if labels == [] then s else Run(Step(s, labels[0]), labels[1..])
  }

  lemma {:induction false} RunHolds(s: State, labels: seq<Label>)
    requires Inv(s) && Runnable(s, labels)
    ensures Inv(Run(s, labels))
    ensures s.claimedAt.Some? ==> Run(s, labels).claimedAt == s.claimedAt
    decreases |labels|
  {
    if labels != [] {
      StepHolds(s, labels[0]);
      RunHolds(Step(s, labels[0]), labels[1..]);
    }
  }

  /**
   Under every interleaving: after the exit is claimed the flag stays up and the peer count stays
   zero, so no attach succeeds; the final peer check, which would take the flag back, never
   finds a peer; and a waiter blocked on an exit armed meanwhile has a notification delivered
   or still owed.
   */
  lemma {:induction false} ExitTheorem(grace: Option<nat>, before: seq<Label>, after: seq<Label>)
    requires Runnable(Init(grace), before) && Runnable(Run(Init(grace), before), after)
    ensures var s := Run(Init(grace), before);
      var t := Run(s, after);
      && (s.shuttingDown ==> t.shuttingDown && t.peers == 0 && t.claimedAt == s.claimedAt)
      && (t.waiter.Confirming? ==> t.peers == 0 && StepWaiter(t).shuttingDown)
      && NoLostWakeup(t)
      && (grace.None? ==> !t.shuttingDown)
  {
    var s := Run(Init(grace), before);
    RunHolds(Init(grace), before);
    RunHolds(s, after);
    GraceIsFixed(Init(grace), before);
    GraceIsFixed(s, after);
  }

  lemma {:induction false} GraceIsFixed(s: State, labels: seq<Label>)
    requires Runnable(s, labels)
    ensures Run(s, labels).grace == s.grace
    decreases |labels|
  {
    if labels != [] { GraceIsFixed(Step(s, labels[0]), labels[1..]); }
  }

  /** The claim is never early: it comes at least the grace after the last peer last left. */
  lemma {:induction false} ClaimWaitsOutTheGrace(grace: nat, before: seq<Label>, a: Label)
    requires Runnable(Init(Some(grace)), before)
    requires var s := Run(Init(Some(grace)), before);
      Enabled(s, a) && !s.shuttingDown && Step(s, a).shuttingDown
    ensures var s := Run(Init(Some(grace)), before);
      s.now >= s.lastArm + grace && s.peers == 0 && Step(s, a).claimedAt == Some(s.now)
  {
    var s := Run(Init(Some(grace)), before);
    RunHolds(Init(Some(grace)), before);
    GraceIsFixed(Init(Some(grace)), before);
    StepHolds(s, a);
  }

  // --- who is counted -------------------------------------------------------------------------

  /** Attaches that succeeded less detaches, and the lowest that number ever was (0 at the start). */
  datatype Tally = Tally(balance: int, low: int)

  function Counted(n: Tally, s: State, a: Label): Tally {
    if a.AttachLocked? && !s.shuttingDown then n.(balance := n.balance + 1)
    else if a.DetachLocked? then Tally(n.balance - 1, if n.balance - 1 < n.low then n.balance - 1 else n.low)
    else n
  }

  ghost function CountedAll(n: Tally, s: State, labels: seq<Label>): Tally
    requires Runnable(s, labels)
    decreases |labels|
  {
    if labels == [] then n else CountedAll(Counted(n, s, labels[0]), Step(s, labels[0]), labels[1..])
  }

  /** No prefix of the run has more detaches than attaches. */
  ghost predicate NeverBelow(n: Tally, s: State, labels: seq<Label>)
    requires Runnable(s, labels)
    decreases |labels|
  {
    n.balance >= 0 && (labels == [] || NeverBelow(Counted(n, s, labels[0]), Step(s, labels[0]), labels[1..]))
  }

  lemma {:induction false} StepCounts(s: State, a: Label, n: Tally)
    requires Enabled(s, a) && s.peers == n.balance - n.low && n.low <= n.balance
    ensures var m := Counted(n, s, a); Step(s, a).peers == m.balance - m.low && m.low <= m.balance
  {
  }

  lemma {:induction false} RunCounts(s: State, labels: seq<Label>, n: Tally)
    requires Runnable(s, labels) && s.peers == n.balance - n.low && n.low <= n.balance
    ensures var m := CountedAll(n, s, labels); Run(s, labels).peers == m.balance - m.low && m.low <= m.balance
    ensures NeverBelow(n, s, labels) && n.low == 0 ==> CountedAll(n, s, labels).low == 0
    decreases |labels|
  {
    if labels != [] {
      StepCounts(s, labels[0], n);
      RunCounts(Step(s, labels[0]), labels[1..], Counted(n, s, labels[0]));
      if NeverBelow(n, s, labels) {
        assert NeverBelow(Counted(n, s, labels[0]), Step(s, labels[0]), labels[1..]);
        assert Counted(n, s, labels[0]).balance >= 0;
      }
    }
  }

  /**
   The peer count told from the attaches and detaches of the run: their balance above its lowest
   point, which is the balance itself when no prefix detaches more than it attached. A deadline
   is set only by a detach that leaves nobody, at its time plus the grace, and the exit is
   claimed only where nobody is left.
   */
  lemma {:induction false} PeersTheorem(grace: Option<nat>, labels: seq<Label>, a: Label)
    requires Runnable(Init(grace), labels) && Enabled(Run(Init(grace), labels), a)
    ensures var s := Run(Init(grace), labels);
      var n, t := CountedAll(Tally(0, 0), Init(grace), labels), Step(s, a);
      && s.peers == n.balance - n.low
      && (NeverBelow(Tally(0, 0), Init(grace), labels) ==> s.peers == n.balance)
      && (t.deadline.Some? && t.deadline != s.deadline ==>
            a.DetachLocked? && Counted(n, s, a).balance == Counted(n, s, a).low
            && grace.Some? && t.deadline.value == s.now + grace.value)
      && (a.DetachLocked? && grace.Some? && Counted(n, s, a).balance == Counted(n, s, a).low ==> t.deadline.Some?)
      && (a.AttachLocked? && !s.shuttingDown ==> t.deadline.None?)
      && (t.shuttingDown && !s.shuttingDown ==> n.balance == n.low)
      && (s.shuttingDown ==> t.shuttingDown && t.peers == 0)
  {
    RunCounts(Init(grace), labels, Tally(0, 0));
    RunHolds(Init(grace), labels);
    GraceIsFixed(Init(grace), labels);
    var s := Run(Init(grace), labels);
    StepHolds(s, a);
    StepCounts(s, a, CountedAll(Tally(0, 0), Init(grace), labels));
  }

  /** Nobody and nothing at the start; time and detaches can always come, and a notification when one is owed. */
  lemma {:induction false} StartTable(grace: Option<nat>, s: State)
    ensures var i := Init(grace);
      && i.peers == 0 && i.deadline == None && !i.shuttingDown && i.claimedAt == None && i.waiter == Registering
      && i.attaching == 0 && i.owedAttach == 0 && i.owedDetach == 0 && !i.delivered
    ensures Enabled(s, Tick) && Step(s, Tick) == s.(now := s.now + 1)
    ensures Enabled(s, AttachCheck)
    ensures Enabled(s, AttachNotify) <==> s.owedAttach > 0
    ensures Enabled(s, DetachNotify) <==> s.owedDetach > 0
    ensures !s.waiter.Confirming? ==> Enabled(s, DetachLocked) && Step(s, DetachLocked).owedDetach == s.owedDetach + 1
  {
  }

  /**
   An attach goes through exactly when the exit is not claimed: it counts the peer, disarms and
   owes a notification.
   */
  lemma {:induction false} AttachTable(s: State)
    requires !s.waiter.Confirming?
    ensures s.shuttingDown ==> Step(s, AttachCheck) == s
    ensures !s.shuttingDown ==>
              && Enabled(Step(s, AttachCheck), AttachLocked)
              && var t := Step(Step(s, AttachCheck), AttachLocked);
                 && t.peers == s.peers + 1 && t.deadline == None
                 && t.owedAttach == s.owedAttach + 1 && t.attaching == s.attaching
    ensures s.attaching > 0 && s.shuttingDown ==>
              Enabled(s, AttachLocked) && Step(s, AttachLocked) == s.(attaching := s.attaching - 1)
  {
  }

  /** A notification reaches a waiter that has registered, and settles one that was owed. */
  lemma {:induction false} NotifyTable(s: State, a: Label)
    requires Enabled(s, a) && (a.AttachNotify? || a.DetachNotify?)
    ensures !s.waiter.Registering? ==> Step(s, a).delivered
    ensures s.waiter.Registering? ==> Step(s, a).delivered == s.delivered
    ensures a.AttachNotify? ==> Step(s, a).owedAttach == s.owedAttach - 1 && Step(s, a).owedDetach == s.owedDetach
    ensures a.DetachNotify? ==> Step(s, a).owedDetach == s.owedDetach - 1 && Step(s, a).owedAttach == s.owedAttach
    ensures Step(s, a).waiter == s.waiter && Step(s, a).peers == s.peers && Step(s, a).deadline == s.deadline
  {
  }

  /**
   The claim: with a peer it disarms and starts over, without an expired deadline it starts over,
   and else it raises the flag, disarms and returns.
   */
  lemma {:induction false} ClaimTable(s: State)
    requires s.grace.Some? && s.waiter.Claiming?
    ensures var t := Step(s, WaiterStep);
      && (s.peers > 0 ==> t == s.(deadline := None, waiter := Registering))
      && (s.peers == 0 && (s.deadline.None? || s.deadline.value > s.now) ==> t == s.(waiter := Registering))
      && (s.peers == 0 && s.deadline.Some? && s.deadline.value <= s.now ==>
            t.shuttingDown && t.deadline == None && t.waiter == Confirming && Step(t, WaiterStep).waiter == Returned)
  {
  }

  /** The waiter registers first, then reads the deadline, then looks at the clock; a wakeup starts it over. */
  lemma {:induction false} WaiterTable(s: State)
    requires s.grace.Some?
    ensures s.waiter.Registering? ==> Step(s, WaiterStep) == s.(waiter := Reading, delivered := false)
    ensures s.waiter.Reading? && s.deadline.None? ==> Step(s, WaiterStep) == s.(waiter := BlockedUnarmed)
    ensures s.waiter.Reading? && s.deadline.Some? ==> Step(s, WaiterStep) == s.(waiter := Deciding(s.deadline.value))
    ensures s.waiter.Deciding? && s.now < s.waiter.deadline ==>
              Step(s, WaiterStep) == s.(waiter := BlockedArmed(s.waiter.deadline))
    ensures s.waiter.Deciding? && s.now >= s.waiter.deadline ==> Step(s, WaiterStep) == s.(waiter := Claiming)
    ensures s.waiter.BlockedUnarmed? ==> (Enabled(s, WaiterStep) <==> s.delivered)
    ensures s.waiter.BlockedArmed? ==> (Enabled(s, WaiterStep) <==> s.delivered || s.now >= s.waiter.deadline)
    ensures (s.waiter.BlockedUnarmed? || s.waiter.BlockedArmed?) && Enabled(s, WaiterStep) ==>
              Step(s, WaiterStep) == s.(waiter := Registering)
    ensures s.waiter.Returned? ==> !Enabled(s, WaiterStep)
  {
  }

  // --- progress ------------------------------------------------------------------------------

  function RunWaiter(s: State, n: nat): State
    decreases n
  {
    if n == 0 || !WaiterReady(s) then s else RunWaiter(StepWaiter(s), n - 1)
  }

  /**
   The exit is not missed: in any reachable state with an expired deadline and no notification
   still owed, the waiter alone claims the exit and returns within eight of its own steps.
   */
  lemma {:induction false} ExpiredExitIsClaimed(s: State)
    requires Inv(s) && s.deadline.Some? && s.deadline.value <= s.now && s.owedDetach == 0 && !s.shuttingDown
    ensures RunWaiter(s, 8).waiter.Returned? && RunWaiter(s, 8).shuttingDown
  {
    match s.waiter
    case Registering => FromRegistering(s, 8);
    case Reading => FromReading(s, 8);
    case BlockedUnarmed => FromRegistering(StepWaiter(s), 7);
    case Deciding(d) => FromDeciding(s, 8);
    case BlockedArmed(d) => FromRegistering(StepWaiter(s), 7);
    case Claiming => FromClaiming(s, 8);
  }

  ghost predicate Expired(s: State) {
    Inv(s) && s.deadline.Some? && s.deadline.value <= s.now && !s.shuttingDown
  }

  lemma {:induction false} FromClaiming(s: State, n: nat)
    requires Expired(s) && s.waiter.Claiming? && n >= 2
    ensures RunWaiter(s, n).waiter.Returned? && RunWaiter(s, n).shuttingDown
  {
    var s1 := StepWaiter(s);
    var s2 := StepWaiter(s1);
    assert RunWaiter(s, n) == RunWaiter(s1, n - 1) == RunWaiter(s2, n - 2) == s2;
  }

  lemma {:induction false} FromDeciding(s: State, n: nat)
    requires Expired(s) && s.waiter.Deciding? && n >= 3
    ensures RunWaiter(s, n).waiter.Returned? && RunWaiter(s, n).shuttingDown
  {
    StepHolds(s, WaiterStep);
    FromClaiming(StepWaiter(s), n - 1);
  }

  lemma {:induction false} FromReading(s: State, n: nat)
    requires Expired(s) && s.waiter.Reading? && n >= 4
    ensures RunWaiter(s, n).waiter.Returned? && RunWaiter(s, n).shuttingDown
  {
    StepHolds(s, WaiterStep);
    FromDeciding(StepWaiter(s), n - 1);
  }

  lemma {:induction false} FromRegistering(s: State, n: nat)
    requires Expired(s) && s.waiter.Registering? && n >= 5
    ensures RunWaiter(s, n).waiter.Returned? && RunWaiter(s, n).shuttingDown
  {
    StepHolds(s, WaiterStep);
    FromReading(StepWaiter(s), n - 1);
  }
}
