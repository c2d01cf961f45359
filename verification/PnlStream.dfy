/**
 The PnL stream as proof of exposure: which rows count, when the re-arm gate opens, and
 what net is published for a product root.
 */
module PnlStream {
  import opened Basics
  import opened ProductRoots

  const ANY_SYMBOL: string := "*"

  datatype PositionSide = Long | Short | Flat

  datatype Position = Position(symbol: string, quantity: int, side: PositionSide)

  datatype Input =
    | Forget
    | Resync
    | Gap
    | BeginPoll
    | AccountRow(good: bool, now: int)
    | PositionRow(key: string, symbol: string, net: int, seeds: bool, now: int)
    | BadRow(symbol: string)

  function PositionOf(symbol: string, net: int): Position {
    if net > 0 then Position(symbol, net, Long)
    else if net < 0 then Position(symbol, -net, Short)
    else Position(symbol, 0, Flat)
  }

  function Signed(p: Position): int {
    match p.side
    case Long => p.quantity
    case Short => -p.quantity
    case Flat => 0
  }

  // ---------------------------------------------------------------- the state

  datatype Gate = Gate(epoch: nat, pollEpoch: nat, observed: bool, live: Option<int>)

  datatype Book = Book(positions: map<string, Position>, seen: map<string, int>)

  datatype State = State(gate: Gate, book: Book, unreadable: set<string>)

  const START := State(Gate(0, 0, false, None), Book(map[], map[]), {})

  function Noted(g: Gate, now: int): Gate {
    g.(observed := true, live := if g.live.None? then Some(now) else g.live)
  }

  function BadName(symbol: string): string {
    if Trim(symbol) == "" then ANY_SYMBOL else Trim(symbol)
  }

  /** A row whose poll began before the last stream change is ignored whole. */
  function Dispatched(s: State, input: Input): State {
    match input
    case AccountRow(good, now) => if good then s.(gate := Noted(s.gate, now)) else s
    case BadRow(symbol) => s.(unreadable := s.unreadable + {BadName(symbol)})
    case PositionRow(key, symbol, net, seeds, now) =>
      var book := s.book.(positions := s.book.positions[key := PositionOf(symbol, net)]);
      var unreadable := s.unreadable - {Trim(symbol)};
      if !seeds then State(s.gate, book, unreadable)
      else State(Noted(s.gate, now), book.(seen := book.seen[key := now]), unreadable)
    case _ => s
  }

  function Step(s: State, input: Input): State {
    match input
    case Forget => State(Gate(s.gate.epoch + 1, s.gate.pollEpoch, false, None), Book(map[], map[]), {})
    case Resync => State(Gate(s.gate.epoch + 1, s.gate.pollEpoch, false, None), s.book, s.unreadable - {ANY_SYMBOL})
    case Gap => s.(gate := s.gate.(epoch := s.gate.epoch + 1, observed := false))
    case BeginPoll => s.(gate := s.gate.(pollEpoch := s.gate.epoch))
    case _ => if s.gate.pollEpoch == s.gate.epoch then Dispatched(s, input) else s
  }

  function Run(t: seq<Input>): State {
    if t == [] then START else Step(Run(t[..|t| - 1]), t[|t| - 1])
  }

  // ---------------------------------------------------------------- net of a root

  function Contribution(p: Position, root: string): int {
    if MatchesRoot(p.symbol, root) then Signed(p) else 0
  }

  ghost function NetOf(rows: map<string, Position>, root: string): int
    decreases |rows|
  {
    if rows == map[] then 0
    else
      var key :| key in rows;
      Contribution(rows[key], root) + NetOf(rows - {key}, root)
  }

  /** The sum does not depend on the order in which rows are taken. */
  lemma {:induction false} NetWithout(rows: map<string, Position>, key: string, root: string)
    requires key in rows
    ensures NetOf(rows, root) == Contribution(rows[key], root) + NetOf(rows - {key}, root)
    decreases |rows|
  {
    var first :| key in rows && first in rows
        && NetOf(rows, root) == Contribution(rows[first], root) + NetOf(rows - {first}, root);
    if first != key {
      NetWithout(rows - {first}, key, root);
      NetWithout(rows - {key}, first, root);
      assert rows - {first} - {key} == rows - {key} - {first};
    }
  }

  method SignedNet(rows: map<string, Position>, root: string) returns (net: int)
    ensures net == NetOf(rows, root)
  {
    net := 0;
    var rest := rows;
    while rest != map[]
      invariant net + NetOf(rest, root) == NetOf(rows, root)
      decreases |rest|
    {
      var key :| key in rest;
      NetWithout(rest, key, root);
      if MatchesRoot(rest[key].symbol, root) {
        match rest[key].side {
          case Long => net := net + rest[key].quantity;
          case Short => net := net - rest[key].quantity;
          case Flat =>
        }
      }
      rest := rest - {key};
    }
  }

  function RowsSeenSince(b: Book, live: int): map<string, Position> {
    map key | key in b.positions && (if key in b.seen then b.seen[key] else 0) >= live :: b.positions[key]
  }

  ghost predicate UnreadableFor(unreadable: set<string>, root: string) {
    exists s :: s in unreadable && (s == ANY_SYMBOL || MatchesRoot(s, root))
  }

  ghost function SnapshotNet(s: State, root: string): Option<int> {
    if s.gate.live.None? || UnreadableFor(s.unreadable, root) then None
    else Some(NetOf(RowsSeenSince(s.book, s.gate.live.value), root))
  }

  class PnlClient {
    var epoch: nat
    var pollEpoch: nat
    var observed: bool
    var live: Option<int>
    var positions: map<string, Position>
    var seen: map<string, int>
    var unreadable: set<string>

    function View(): State
      reads this
    {
      State(Gate(epoch, pollEpoch, observed, live), Book(positions, seen), unreadable)
    }

    constructor ()
      ensures View() == START
    {
      epoch, pollEpoch, observed, live := 0, 0, false, None;
      positions, seen, unreadable := map[], map[], {};
    }

    /** (Re)connect: nothing of the previous stream is kept. */
    method ForgetPnlState()
      modifies this
      ensures View() == Step(old(View()), Forget)
    {
      epoch, observed, live := epoch + 1, false, None;
      positions, seen, unreadable := map[], map[], {};
    }

    /** The stream failed: position rows stay for reports, but are no proof any more. */
    method ResyncSubscription()
      modifies this
      ensures View() == Step(old(View()), Resync)
    {
      live, epoch, observed := None, epoch + 1, false;
      unreadable := unreadable - {ANY_SYMBOL};
    }

    method GapBarrier()
      modifies this
      ensures View() == Step(old(View()), Gap)
    {
      epoch, observed := epoch + 1, false;
    }

    method Poll()
      modifies this
      ensures View() == Step(old(View()), BeginPoll)
    {
      pollEpoch := epoch;
    }

    method NoteObserved(now: int)
      modifies this
      ensures View() == old(View()).(gate := Noted(old(View()).gate, now))
    {
      if live.None? {
        live := Some(now);
      }
      observed := true;
    }

    method DispatchAccount(good: bool, now: int)
      modifies this
      ensures View() == Step(old(View()), AccountRow(good, now))
    {
      if pollEpoch == epoch && good {
        NoteObserved(now);
      }
    }

    method DispatchUnreadable(symbol: string)
      modifies this
      ensures View() == Step(old(View()), BadRow(symbol))
    {
      if pollEpoch == epoch {
        unreadable := unreadable + {BadName(symbol)};
      }
    }

    method CachePosition(key: string, symbol: string, net: int, seeds: bool, now: int)
      modifies this
      ensures View() == Step(old(View()), PositionRow(key, symbol, net, seeds, now))
    {
      if pollEpoch == epoch {
        unreadable := unreadable - {Trim(symbol)};
        positions := positions[key := PositionOf(symbol, net)];
        if seeds {
          NoteObserved(now);
          seen := seen[key := now];
        }
      }
    }

    method ExposureNet(root: string) returns (net: Option<int>)
      ensures net == SnapshotNet(View(), root)
    {
      if live.None? {
        return None;
      }
      var bad := unreadable;
      while bad != {}
        invariant bad <= unreadable
        invariant forall s :: s in unreadable && s !in bad ==> !(s == ANY_SYMBOL || MatchesRoot(s, root))
        decreases |bad|
      {
        var s :| s in bad;
        if s == ANY_SYMBOL || MatchesRoot(s, root) {
          return None;
        }
        bad := bad - {s};
      }
      var sum := SignedNet(RowsSeenSince(Book(positions, seen), live.value), root);
      return Some(sum);
    }
  }

  // ---------------------------------------------------------------- the stream, read off the run

  predicate Bumps(input: Input) {
    input.Forget? || input.Resync? || input.Gap?
  }

  predicate Resets(input: Input) {
    input.Forget? || input.Resync?
  }

  predicate Observes(input: Input) {
    (input.AccountRow? && input.good) || (input.PositionRow? && input.seeds)
  }

  /** No epoch change since the last poll began: the rows that arrive are handled. */
  predicate Current(t: seq<Input>) {
    if t == [] then true
    else if t[|t| - 1].BeginPoll? then true
    else if Bumps(t[|t| - 1]) then false
    else Current(t[..|t| - 1])
  }

  /** No stream change since the last poll began: the rows that arrive are of the current stream. */
  predicate Streaming(t: seq<Input>) {
    if t == [] then true
    else if t[|t| - 1].BeginPoll? then true
    else if Resets(t[|t| - 1]) then false
    else Streaming(t[..|t| - 1])
  }

  /** The last position of each contract delivered on the current stream, handled or not. */
  function Delivered(t: seq<Input>): map<string, Position> {
    if t == [] then map[]
    else
      var before, last := Delivered(t[..|t| - 1]), t[|t| - 1];
      if Resets(last) then map[]
      else if last.PositionRow? && Streaming(t[..|t| - 1]) then before[last.key := PositionOf(last.symbol, last.net)]
      else before
  }

  /** The last position of each contract handled on the current stream. */
  function StreamRows(t: seq<Input>): map<string, Position> {
    if t == [] then map[]
    else
      var before, last := StreamRows(t[..|t| - 1]), t[|t| - 1];
      if Resets(last) then map[]
      else if last.PositionRow? && Current(t[..|t| - 1]) && (last.seeds || last.key in before) then
        before[last.key := PositionOf(last.symbol, last.net)]
      else before
  }

  /** When the current stream was first observed. */
  function LiveSince(t: seq<Input>): Option<int> {
    if t == [] then None
    else
      var before, last := LiveSince(t[..|t| - 1]), t[|t| - 1];
      if Resets(last) then None
      else if before.None? && Observes(last) && Current(t[..|t| - 1]) then Some(last.now)
      else before
  }

  /** The last word on `symbol` was an unreadable row. */
  predicate Unread(t: seq<Input>, symbol: string) {
    if t == [] then false
    else
      var before, last := Unread(t[..|t| - 1], symbol), t[|t| - 1];
      match last
      case Forget => false
      case Resync => before && symbol != ANY_SYMBOL
      case BadRow(s) => before || (Current(t[..|t| - 1]) && BadName(s) == symbol)
      case PositionRow(_, s, _, _, _) => before && !(Current(t[..|t| - 1]) && Trim(s) == symbol)
      case _ => before
  }

  /** The same for the rows delivered, handled or not. */
  predicate UnreadDelivered(t: seq<Input>, symbol: string) {
    if t == [] then false
    else
      var before, last := UnreadDelivered(t[..|t| - 1], symbol), t[|t| - 1];
      match last
      case Forget => false
      case Resync => before && symbol != ANY_SYMBOL
      case BadRow(s) => before || (Streaming(t[..|t| - 1]) && BadName(s) == symbol)
      case PositionRow(_, s, _, _, _) => before && !(Streaming(t[..|t| - 1]) && Trim(s) == symbol)
      case _ => before
  }

  /** The position of each contract kept since the last (re)connect, over stream resets. */
  function Held(t: seq<Input>): map<string, Position> {
    if t == [] then map[]
    else
      var before, last := Held(t[..|t| - 1]), t[|t| - 1];
      if last.Forget? then map[]
      else if last.PositionRow? && Current(t[..|t| - 1]) then before[last.key := PositionOf(last.symbol, last.net)]
      else before
  }

  /** The clock reading of the last row of `key` handled to its end since the last (re)connect. */
  function LastStamp(t: seq<Input>, key: string): Option<int> {
    if t == [] then None
    else
      var before, last := LastStamp(t[..|t| - 1], key), t[|t| - 1];
      if last.Forget? then None
      else if last.PositionRow? && last.key == key && last.seeds && Current(t[..|t| - 1]) then Some(last.now)
      else before
  }

  /** The last clock reading of a row, 0 before any. */
  function LatestTime(t: seq<Input>): int {
    if t == [] then 0
    else if t[|t| - 1].AccountRow? || t[|t| - 1].PositionRow? then t[|t| - 1].now
    else LatestTime(t[..|t| - 1])
  }

  /** The last clock reading before the current stream. */
  function Boundary(t: seq<Input>): int {
    if t == [] then 0
    else if Resets(t[|t| - 1]) then LatestTime(t[..|t| - 1])
    else Boundary(t[..|t| - 1])
  }

  /** The clock is positive and never goes back. */
  ghost predicate ClockRuns(t: seq<Input>) {
    t == [] ||
    (ClockRuns(t[..|t| - 1]) &&
     (t[|t| - 1].AccountRow? || t[|t| - 1].PositionRow? ==>
        t[|t| - 1].now > 0 && t[|t| - 1].now >= LatestTime(t[..|t| - 1])))
  }

  /** And it has advanced whenever a new stream is read. */
  ghost predicate ClockAdvances(t: seq<Input>) {
    t == [] ||
    (ClockAdvances(t[..|t| - 1]) &&
     (t[|t| - 1].AccountRow? || t[|t| - 1].PositionRow? ==> t[|t| - 1].now > Boundary(t[..|t| - 1])))
  }

  // ---------------------------------------------------------------- gate

  lemma {:induction false} EpochsAgree(t: seq<Input>)
    ensures Run(t).gate.pollEpoch <= Run(t).gate.epoch
    ensures Run(t).gate.pollEpoch == Run(t).gate.epoch <==> Current(t)
  {
    if t != [] {
      EpochsAgree(t[..|t| - 1]);
    }
  }

  /** A row of a poll that began at `p` (or with the loop) is handled at `i`, with no stream change since `p`. */
  ghost predicate Opens(t: seq<Input>, p: int, i: int) {
    && -1 <= p < i < |t|
    && (p == -1 || t[p].BeginPoll?)
    && Observes(t[i])
    && forall j :: p < j < |t| ==> !Bumps(t[j])
  }

  lemma {:induction false} CurrentSince(t: seq<Input>) returns (p: int)
    requires Current(t)
    ensures -1 <= p < |t| && (p == -1 || t[p].BeginPoll?)
    ensures forall j :: p < j < |t| ==> !Bumps(t[j])
  {
    if t == [] {
      p := -1;
    } else if t[|t| - 1].BeginPoll? {
      p := |t| - 1;
    } else {
      p := CurrentSince(t[..|t| - 1]);
      assert forall j :: 0 <= j < |t| - 1 ==> t[..|t| - 1][j] == t[j];
    }
  }

  lemma {:induction false} QuietIsCurrent(t: seq<Input>, p: int)
    requires -1 <= p < |t| && (p == -1 || t[p].BeginPoll?)
    requires forall j :: p < j < |t| ==> !Bumps(t[j])
    ensures Current(t)
    decreases |t|
  {
    if p < |t| - 1 {
      QuietIsCurrent(t[..|t| - 1], p);
    }
  }

  lemma {:induction false} OpensExtends(t: seq<Input>, p: int, i: int)
    requires t != [] && Opens(t, p, i) && i < |t| - 1
    ensures Opens(t[..|t| - 1], p, i)
  {
  }

  /** The re-arm gate is open exactly when such a row was handled. */
  lemma {:induction false} GateExactlyWhen(t: seq<Input>)
    ensures Run(t).gate.observed <==> exists p, i :: Opens(t, p, i)
  {
    if t != [] {
      var init, last := t[..|t| - 1], t[|t| - 1];
      GateExactlyWhen(init);
      EpochsAgree(init);
      if Run(t).gate.observed {
        if Observes(last) && Current(init) {
          var p := CurrentSince(init);
          assert Opens(t, p, |t| - 1);
        } else {
          var p, i :| Opens(init, p, i);
          assert Opens(t, p, i);
        }
      }
      if p, i :| Opens(t, p, i) {
        GateOpened(t, p, i);
      }
    }
  }

  lemma {:induction false} GateOpened(t: seq<Input>, p: int, i: int)
    requires Opens(t, p, i)
    ensures Run(t).gate.observed
    decreases |t|
  {
    var init := t[..|t| - 1];
    EpochsAgree(init);
    if i == |t| - 1 {
      assert forall j :: 0 <= j < |init| ==> init[j] == t[j];
      QuietIsCurrent(init, p);
    } else {
      OpensExtends(t, p, i);
      GateOpened(init, p, i);
    }
  }

  // ---------------------------------------------------------------- rows

  lemma {:induction false} LiveAgrees(t: seq<Input>)
    ensures Run(t).gate.live == LiveSince(t)
  {
    if t != [] {
      LiveAgrees(t[..|t| - 1]);
      EpochsAgree(t[..|t| - 1]);
    }
  }

  lemma {:induction false} UnreadAgrees(t: seq<Input>, symbol: string)
    ensures symbol in Run(t).unreadable <==> Unread(t, symbol)
  {
    if t != [] {
      UnreadAgrees(t[..|t| - 1], symbol);
      EpochsAgree(t[..|t| - 1]);
    }
  }

  lemma {:induction false} LiveInTime(t: seq<Input>)
    requires ClockRuns(t)
    ensures LatestTime(t) >= 0
    ensures LiveSince(t).Some? ==> 0 < LiveSince(t).value <= LatestTime(t)
    ensures ClockAdvances(t) && LiveSince(t).Some? ==> LiveSince(t).value > Boundary(t)
  {
    if t != [] {
      LiveInTime(t[..|t| - 1]);
    }
  }

  /** What the book holds of one contract, against the rows of the current stream. */
  ghost predicate KeyHolds(t: seq<Input>, key: string) {
    var b := Run(t).book;
    && (key in b.seen ==> key in b.positions && b.seen[key] <= LatestTime(t))
    && (key in StreamRows(t) ==>
          && key in b.seen
          && b.positions[key] == StreamRows(t)[key]
          && LiveSince(t).Some? && b.seen[key] >= LiveSince(t).value)
  }

  lemma {:induction false} BookHolds(t: seq<Input>, key: string)
    requires ClockRuns(t)
    ensures KeyHolds(t, key)
  {
    if t != [] {
      var init := t[..|t| - 1];
      BookHolds(init, key);
      LiveInTime(init);
      EpochsAgree(init);
    }
  }

  /** Contracts of earlier streams carry stamps no later than the stream change. */
  lemma {:induction false} OldStamps(t: seq<Input>, key: string)
    requires ClockRuns(t)
    ensures key in Run(t).book.seen && key !in StreamRows(t) ==> Run(t).book.seen[key] <= Boundary(t)
  {
    if t != [] {
      OldStamps(t[..|t| - 1], key);
      BookHolds(t[..|t| - 1], key);
      EpochsAgree(t[..|t| - 1]);
    }
  }

  lemma {:induction false} BookIsHeld(t: seq<Input>)
    ensures Run(t).book.positions == Held(t)
  {
    if t != [] {
      BookIsHeld(t[..|t| - 1]);
      EpochsAgree(t[..|t| - 1]);
    }
  }

  lemma {:induction false} StampAgrees(t: seq<Input>, key: string)
    ensures LastStamp(t, key) == if key in Run(t).book.seen then Some(Run(t).book.seen[key]) else None
    ensures LastStamp(t, key).Some? ==> key in Held(t)
  {
    if t != [] {
      StampAgrees(t[..|t| - 1], key);
      EpochsAgree(t[..|t| - 1]);
    }
  }

  /** The current stream began no earlier than the last reading before it. */
  lemma {:induction false} LiveAfterBoundary(t: seq<Input>)
    requires ClockRuns(t)
    ensures 0 <= Boundary(t) <= LatestTime(t)
    ensures LiveSince(t).Some? ==> Boundary(t) <= LiveSince(t).value
  {
    if t != [] {
      LiveAfterBoundary(t[..|t| - 1]);
      LiveInTime(t[..|t| - 1]);
    }
  }

  /** A contract without a row on the current stream whose last stamp is the stream's very first reading. */
  ghost predicate Lingers(t: seq<Input>, key: string) {
    LiveSince(t).Some? && key !in StreamRows(t) && LastStamp(t, key) == LiveSince(t)
  }

  ghost function LingerRows(t: seq<Input>): map<string, Position> {
    map key | key in Held(t) && Lingers(t, key) :: Held(t)[key]
  }

  lemma {:induction false} CountedKey(t: seq<Input>, key: string)
    requires ClockRuns(t) && LiveSince(t).Some?
    ensures key in RowsSeenSince(Run(t).book, LiveSince(t).value) <==> key in StreamRows(t) || Lingers(t, key)
    ensures key in StreamRows(t) ==> key in Held(t) && Held(t)[key] == StreamRows(t)[key]
    ensures Lingers(t, key) ==> key in Held(t)
  {
    BookHolds(t, key);
    OldStamps(t, key);
    LiveInTime(t);
    LiveAfterBoundary(t);
    StampAgrees(t, key);
    BookIsHeld(t);
  }

  /** The rows that count are the stream's own and the lingering ones. */
  lemma {:induction false} CountedRows(t: seq<Input>)
    requires ClockRuns(t) && LiveSince(t).Some?
    ensures var counted := RowsSeenSince(Run(t).book, LiveSince(t).value);
      && counted.Keys == StreamRows(t).Keys + LingerRows(t).Keys
      && counted - StreamRows(t).Keys == LingerRows(t)
      && Only(counted, StreamRows(t).Keys) == StreamRows(t)
  {
    BookIsHeld(t);
    var counted := RowsSeenSince(Run(t).book, LiveSince(t).value);
    forall key
      ensures key in counted <==> key in StreamRows(t) || key in LingerRows(t)
      ensures key in counted ==> key in Held(t) && counted[key] == Held(t)[key]
      ensures key in StreamRows(t) ==> key in Held(t) && StreamRows(t)[key] == Held(t)[key]
      ensures key in StreamRows(t) ==> key !in LingerRows(t)
    {
      CountedKey(t, key);
    }
  }

  /**
   Exactly the rows of the current stream count if and only if no other contract was last
   stamped with the clock reading the stream began with.
   */
  lemma {:induction false} CountedExactlyWhen(t: seq<Input>)
    requires ClockRuns(t) && LiveSince(t).Some?
    ensures RowsSeenSince(Run(t).book, LiveSince(t).value) == StreamRows(t)
        <==> forall key :: key !in StreamRows(t) ==> LastStamp(t, key) != LiveSince(t)
  {
    CountedRows(t);
    var counted := RowsSeenSince(Run(t).book, LiveSince(t).value);
    if key :| key !in StreamRows(t) && LastStamp(t, key) == LiveSince(t) {
      CountedKey(t, key);
      assert key in counted;
    } else {
      assert LingerRows(t) == map[];
      assert counted == Only(counted, StreamRows(t).Keys);
    }
  }

  /** A clock that advances across stream resets leaves nothing lingering. */
  lemma {:induction false} AdvancingClock(t: seq<Input>)
    requires ClockRuns(t) && ClockAdvances(t)
    ensures LingerRows(t) == map[]
  {
    LiveInTime(t);
    forall key
      ensures !Lingers(t, key)
    {
      OldStamps(t, key);
      StampAgrees(t, key);
    }
  }

  // ---------------------------------------------------------------- the published net

  function Only(rows: map<string, Position>, keys: set<string>): map<string, Position> {
    map key | key in rows && key in keys :: rows[key]
  }

  /** A sum over rows splits along any set of contracts. */
  lemma {:induction false} NetSplit(rows: map<string, Position>, keys: set<string>, root: string)
    ensures NetOf(rows, root) == NetOf(Only(rows, keys), root) + NetOf(rows - keys, root)
    decreases |rows|
  {
    if rows == map[] {
      assert Only(rows, keys) == map[] && rows - keys == map[];
    } else {
      var key :| key in rows;
      NetWithout(rows, key, root);
      NetSplit(rows - {key}, keys, root);
      SplitKey(rows, keys, key);
      if key in keys {
        NetWithout(Only(rows, keys), key, root);
      } else {
        NetWithout(rows - keys, key, root);
      }
    }
  }

  lemma {:induction false} SplitKey(rows: map<string, Position>, keys: set<string>, key: string)
    requires key in rows
    ensures key in keys ==> Only(rows, keys) - {key} == Only(rows - {key}, keys) && rows - {key} - keys == rows - keys
    ensures key !in keys ==> Only(rows - {key}, keys) == Only(rows, keys) && rows - {key} - keys == rows - keys - {key}
  {
  }

  ghost predicate RootUnread(t: seq<Input>, root: string) {
    exists s :: Unread(t, s) && (s == ANY_SYMBOL || MatchesRoot(s, root))
  }

  lemma {:induction false} CountedNet(t: seq<Input>, root: string)
    requires ClockRuns(t) && LiveSince(t).Some?
    ensures NetOf(RowsSeenSince(Run(t).book, LiveSince(t).value), root)
        == NetOf(StreamRows(t), root) + NetOf(LingerRows(t), root)
  {
    CountedRows(t);
    NetSplit(RowsSeenSince(Run(t).book, LiveSince(t).value), StreamRows(t).Keys, root);
  }

  /**
   The published net, over every run: none before the stream is observed or while a handled row
   of the root was unreadable, else the signed sum over the root's rows handled on the current
   stream, and over the lingering ones.
   */
  lemma {:induction false} NetTheorem(t: seq<Input>, root: string)
    requires ClockRuns(t)
    ensures SnapshotNet(Run(t), root)
         == if LiveSince(t).None? || RootUnread(t, root) then None
            else Some(NetOf(StreamRows(t), root) + NetOf(LingerRows(t), root))
  {
    LiveAgrees(t);
    RootUnreadAgrees(t, root);
    if LiveSince(t).Some? {
      CountedNet(t, root);
    }
  }

  /** With a clock that advances across stream resets, exactly the rows handled on the current stream. */
  lemma {:induction false} AdvancingNet(t: seq<Input>, root: string)
    requires ClockRuns(t) && ClockAdvances(t)
    ensures SnapshotNet(Run(t), root)
         == if LiveSince(t).None? || RootUnread(t, root) then None else Some(NetOf(StreamRows(t), root))
  {
    NetTheorem(t, root);
    AdvancingClock(t);
  }

  lemma {:induction false} RootUnreadAgrees(t: seq<Input>, root: string)
    ensures UnreadableFor(Run(t).unreadable, root) <==> RootUnread(t, root)
  {
    forall s
      ensures s in Run(t).unreadable <==> Unread(t, s)
    {
      UnreadAgrees(t, s);
    }
  }

  /** A clock that stands still over a stream change lets a position of the old stream count. */
  lemma {:induction false} StandingClockLingers()
    ensures var t := [PositionRow("k", "ES", 2, true, 5), Resync, BeginPoll, AccountRow(true, 5)];
            && ClockRuns(t) && !ClockAdvances(t)
            && StreamRows(t) == Delivered(t) == map[]
            && RowsSeenSince(Run(t).book, 5) == map["k" := PositionOf("ES", 2)]
  {
    var t0 := [PositionRow("k", "ES", 2, true, 5)];
    var t1 := t0 + [Resync];
    var t2 := t1 + [BeginPoll];
    var t3 := t2 + [AccountRow(true, 5)];
    assert t3[..3] == t2 && t2[..2] == t1 && t1[..1] == t0 && t0[..0] == [];
    assert t3 == [PositionRow("k", "ES", 2, true, 5), Resync, BeginPoll, AccountRow(true, 5)];
    assert Run(t0).book == Book(map["k" := PositionOf("ES", 2)], map["k" := 5]);
    assert LatestTime(t0) == 5 && ClockRuns(t0);
    assert Boundary(t1) == 5 && LatestTime(t1) == 5 && ClockRuns(t1);
    assert Boundary(t2) == 5 && LatestTime(t2) == 5 && ClockRuns(t2);
  }

  // ---------------------------------------------------------------- rows that were delivered and dropped

  lemma {:induction false} CurrentIsStreaming(t: seq<Input>)
    requires Current(t)
    ensures Streaming(t)
  {
    if t != [] && !t[|t| - 1].BeginPoll? {
      CurrentIsStreaming(t[..|t| - 1]);
    }
  }

  /** A gap with no poll begun since. */
  ghost predicate OpenGap(t: seq<Input>, g: int) {
    0 <= g < |t| && t[g].Gap? && forall j :: g < j < |t| ==> !t[j].BeginPoll?
  }

  /** A row of the current stream is dropped exactly between an order gap and the next poll. */
  lemma {:induction false} DroppedExactlyWhen(t: seq<Input>)
    requires Streaming(t)
    ensures !Current(t) <==> exists g :: OpenGap(t, g)
  {
    if t != [] {
      var init, last := t[..|t| - 1], t[|t| - 1];
      if last.Gap? {
        assert OpenGap(t, |t| - 1);
      } else if !last.BeginPoll? {
        DroppedExactlyWhen(init);
        if g :| OpenGap(init, g) {
          assert OpenGap(t, g);
        }
        if g :| OpenGap(t, g) {
          assert OpenGap(init, g);
        }
      }
    }
  }

  /** A position row of `key` delivered on the stream it arrives on. */
  ghost predicate DeliveredAt(t: seq<Input>, key: string, i: int) {
    0 <= i < |t| && t[i].PositionRow? && t[i].key == key && Streaming(t[..i])
  }

  /** The last such row of the current stream. */
  ghost predicate LastAt(t: seq<Input>, key: string, i: int) {
    && DeliveredAt(t, key, i)
    && (forall j :: i < j < |t| ==> !Resets(t[j]))
    && (forall j :: i < j < |t| ==> !DeliveredAt(t, key, j))
  }

  lemma {:induction false} LastExists(t: seq<Input>, key: string) returns (i: int)
    requires key in Delivered(t)
    ensures LastAt(t, key, i)
  {
    var init, last := t[..|t| - 1], t[|t| - 1];
    if last.PositionRow? && last.key == key && Streaming(init) {
      i := |t| - 1;
    } else {
      i := LastExists(init, key);
      EarlierAt(t, key, i);
    }
  }

  lemma {:induction false} EarlierAt(t: seq<Input>, key: string, i: int)
    requires t != [] && i < |t| - 1 && !Resets(t[|t| - 1]) && !DeliveredAt(t, key, |t| - 1)
    ensures LastAt(t, key, i) <==> LastAt(t[..|t| - 1], key, i)
  {
    var init := t[..|t| - 1];
    assert forall j :: 0 <= j < |init| ==> init[j] == t[j] && init[..j] == t[..j];
    assert forall j :: 0 <= j < |init| ==> (DeliveredAt(init, key, j) <==> DeliveredAt(t, key, j));
  }

  /** What both readings say of a contract is settled by its last row. */
  lemma {:induction false} LastAtMeans(t: seq<Input>, key: string, i: int)
    requires LastAt(t, key, i)
    ensures key in Delivered(t) && Delivered(t)[key] == PositionOf(t[i].symbol, t[i].net)
    ensures key in StreamRows(t) <==> key in StreamRows(t[..i + 1])
    ensures key in StreamRows(t) ==> StreamRows(t)[key] == StreamRows(t[..i + 1])[key]
    decreases |t|
  {
    if i == |t| - 1 {
      assert t[..i + 1] == t;
    } else {
      var init := t[..|t| - 1];
      EarlierAt(t, key, i);
      LastAtMeans(init, key, i);
      assert init[..i + 1] == t[..i + 1];
      if Current(init) {
        CurrentIsStreaming(init);
      }
    }
  }

  lemma {:induction false} HandledIsDelivered(t: seq<Input>, key: string)
    requires key in StreamRows(t)
    ensures key in Delivered(t)
  {
    var init := t[..|t| - 1];
    if key in StreamRows(init) {
      HandledIsDelivered(init, key);
    }
    if Current(init) {
      CurrentIsStreaming(init);
    }
  }

  /** The current stream said something of `key` that the handled rows do not. */
  ghost predicate Misses(t: seq<Input>, key: string) {
    key in Delivered(t) && !(key in StreamRows(t) && StreamRows(t)[key] == Delivered(t)[key])
  }

  /**
   The last row of `key` on the stream was dropped, or its account seeding failed with no earlier
   row handled; and no row handled before it says the same.
   */
  ghost predicate MissedRow(t: seq<Input>, key: string, i: int) {
    && LastAt(t, key, i)
    && !(Current(t[..i]) && (t[i].seeds || key in StreamRows(t[..i])))
    && !(key in StreamRows(t[..i]) && StreamRows(t[..i])[key] == PositionOf(t[i].symbol, t[i].net))
  }

  lemma {:induction false} MissedExactlyWhen(t: seq<Input>, key: string)
    ensures Misses(t, key) <==> exists i :: MissedRow(t, key, i)
  {
    if key in Delivered(t) {
      var i := LastExists(t, key);
      RowMissed(t, key, i);
    }
    if i :| MissedRow(t, key, i) {
      RowMissed(t, key, i);
    }
  }

  lemma {:induction false} RowMissed(t: seq<Input>, key: string, i: int)
    requires LastAt(t, key, i)
    ensures Misses(t, key) <==> MissedRow(t, key, i)
  {
    LastAtMeans(t, key, i);
    assert t[..i + 1][..i] == t[..i];
  }

  ghost function MissedKeys(t: seq<Input>): set<string> {
    set key | key in Delivered(t) && Misses(t, key)
  }

  /** What the stream said of the missed contracts, less what the handled rows still say of them. */
  ghost function MissedChange(t: seq<Input>, root: string): int {
    NetOf(Only(Delivered(t), MissedKeys(t)), root) - NetOf(Only(StreamRows(t), MissedKeys(t)), root)
  }

  lemma {:induction false} DeliveredNet(t: seq<Input>, root: string)
    ensures NetOf(Delivered(t), root) == NetOf(StreamRows(t), root) + MissedChange(t, root)
  {
    var missed := MissedKeys(t);
    NetSplit(Delivered(t), missed, root);
    NetSplit(StreamRows(t), missed, root);
    forall key | key in StreamRows(t)
      ensures key in Delivered(t)
    {
      HandledIsDelivered(t, key);
    }
    assert Delivered(t) - missed == StreamRows(t) - missed;
  }

  /**
   A published net is the sum over all rows delivered on the current stream exactly when what
   was missed and what lingers cancel out; in particular when no row was missed and the clock
   advances across stream resets.
   */
  lemma {:induction false} FullNetExactlyWhen(t: seq<Input>, root: string)
    requires ClockRuns(t) && SnapshotNet(Run(t), root).Some?
    ensures SnapshotNet(Run(t), root).value == NetOf(Delivered(t), root)
        <==> MissedChange(t, root) == NetOf(LingerRows(t), root)
    ensures (forall key, i :: !MissedRow(t, key, i)) && ClockAdvances(t)
        ==> SnapshotNet(Run(t), root).value == NetOf(Delivered(t), root)
  {
    NetTheorem(t, root);
    DeliveredNet(t, root);
    if forall key, i :: !MissedRow(t, key, i) {
      forall key
        ensures !Misses(t, key)
      {
        MissedExactlyWhen(t, key);
      }
      assert MissedKeys(t) == {};
      assert Only(Delivered(t), {}) == map[] && Only(StreamRows(t), {}) == map[];
      if ClockAdvances(t) {
        AdvancingClock(t);
      }
    }
  }

  /**
   Contract by contract: the row that counts is the row delivered exactly when no row of it was
   missed; and where an older row lingers instead, exactly when the two say the same.
   */
  lemma {:induction false} ContractExactlyWhen(t: seq<Input>, key: string)
    requires ClockRuns(t) && LiveSince(t).Some?
    ensures !Lingers(t, key) ==> (CountsAsDelivered(t, key) <==> forall i :: !MissedRow(t, key, i))
    ensures Lingers(t, key) ==>
              (CountsAsDelivered(t, key) <==>
               key in Held(t) && key in Delivered(t) && Held(t)[key] == Delivered(t)[key])
  {
    CountedKey(t, key);
    BookIsHeld(t);
    MissedExactlyWhen(t, key);
    if key in StreamRows(t) {
      HandledIsDelivered(t, key);
    }
  }

  /** The published net takes from `key` the row that the stream last delivered of it, or none as the stream did. */
  ghost predicate CountsAsDelivered(t: seq<Input>, key: string)
    requires LiveSince(t).Some?
  {
    var counted := RowsSeenSince(Run(t).book, LiveSince(t).value);
    && (key in counted <==> key in Delivered(t))
    && (key in counted && key in Delivered(t) ==> counted[key] == Delivered(t)[key])
  }

  /** An event that says whether `symbol` reads, when it is handled. */
  predicate Names(input: Input, symbol: string) {
    (input.BadRow? && BadName(input.symbol) == symbol) || (input.PositionRow? && Trim(input.symbol) == symbol)
  }

  /** The last word of the stream on `symbol` is an unreadable row that was dropped. */
  ghost predicate MissedWord(t: seq<Input>, symbol: string, i: int) {
    && 0 <= i < |t| && t[i].BadRow? && Names(t[i], symbol) && Streaming(t[..i]) && !Current(t[..i])
    && !Unread(t[..i], symbol)
    && (forall j :: i < j < |t| ==> !t[j].Forget? && !(t[j].Resync? && symbol == ANY_SYMBOL))
    && (forall j :: i < j < |t| ==> !(Names(t[j], symbol) && Streaming(t[..j])))
  }

  lemma {:induction false} EarlierWord(t: seq<Input>, symbol: string, i: int)
    requires t != [] && i < |t| - 1
    requires !t[|t| - 1].Forget? && !(t[|t| - 1].Resync? && symbol == ANY_SYMBOL)
    requires !(Names(t[|t| - 1], symbol) && Streaming(t[..|t| - 1]))
    ensures MissedWord(t, symbol, i) <==> MissedWord(t[..|t| - 1], symbol, i)
  {
    var init := t[..|t| - 1];
    assert forall j :: 0 <= j < |init| ==> init[j] == t[j] && init[..j] == t[..j];
  }

  /** An unreadable symbol goes unnoticed exactly when its last word on the stream was dropped. */
  lemma {:induction false} UnreadMissedExactlyWhen(t: seq<Input>, symbol: string)
    ensures UnreadDelivered(t, symbol) && !Unread(t, symbol) <==> exists i :: MissedWord(t, symbol, i)
  {
    if t != [] {
      var init, last := t[..|t| - 1], t[|t| - 1];
      UnreadMissedExactlyWhen(init, symbol);
      if Current(init) {
        CurrentIsStreaming(init);
      }
      if last.Forget? || (last.Resync? && symbol == ANY_SYMBOL) || (Names(last, symbol) && Streaming(init)) {
        LastWord(t, symbol);
      } else {
        forall i | 0 <= i < |init|
          ensures MissedWord(t, symbol, i) <==> MissedWord(init, symbol, i)
        {
          EarlierWord(t, symbol, i);
        }
        assert !MissedWord(t, symbol, |init|);
        assert Unread(t, symbol) == Unread(init, symbol) && UnreadDelivered(t, symbol) == UnreadDelivered(init, symbol);
      }
    }
  }

  lemma {:induction false} LastWord(t: seq<Input>, symbol: string)
    requires t != []
    requires var last := t[|t| - 1];
      last.Forget? || (last.Resync? && symbol == ANY_SYMBOL) || (Names(last, symbol) && Streaming(t[..|t| - 1]))
    ensures UnreadDelivered(t, symbol) && !Unread(t, symbol) <==> exists i :: MissedWord(t, symbol, i)
  {
    var init, n := t[..|t| - 1], |t| - 1;
    assert forall i :: MissedWord(t, symbol, i) ==> i == n;
    if t[n].BadRow? && !Current(init) && !Unread(init, symbol) {
      assert MissedWord(t, symbol, n);
    }
  }

  ghost predicate RootUnreadDelivered(t: seq<Input>, root: string) {
    exists s :: UnreadDelivered(t, s) && (s == ANY_SYMBOL || MatchesRoot(s, root))
  }

  /**
   A net is published although the stream's last word on the root is unreadable exactly when that word was
   dropped.
   */
  lemma {:induction false} UnknownPublishedExactlyWhen(t: seq<Input>, root: string)
    requires ClockRuns(t) && SnapshotNet(Run(t), root).Some?
    ensures RootUnreadDelivered(t, root)
        <==> exists s, i :: (s == ANY_SYMBOL || MatchesRoot(s, root)) && MissedWord(t, s, i)
  {
    NetTheorem(t, root);
    forall s
      ensures UnreadDelivered(t, s) && !Unread(t, s) <==> exists i :: MissedWord(t, s, i)
    {
      UnreadMissedExactlyWhen(t, s);
    }
    if RootUnreadDelivered(t, root) {
      var s :| UnreadDelivered(t, s) && (s == ANY_SYMBOL || MatchesRoot(s, root));
      assert !Unread(t, s);
      var i :| MissedWord(t, s, i);
    }
    if s, i :| (s == ANY_SYMBOL || MatchesRoot(s, root)) && MissedWord(t, s, i) {
      assert UnreadDelivered(t, s);
    }
  }

  /** The input: a row in flight over an order gap is dropped whole, and the old net stays published as known. */
  lemma {:induction false} GapDropsARow()
    ensures var t := [PositionRow("k", "ES", 2, true, 5), Gap, PositionRow("k", "ES", -3, true, 6)];
      && ClockRuns(t) && ClockAdvances(t)
      && SnapshotNet(Run(t), "ES") == Some(2)
      && NetOf(Delivered(t), "ES") == -3
  {
    var t0 := [PositionRow("k", "ES", 2, true, 5)];
    var t1 := t0 + [Gap];
    var t2 := t1 + [PositionRow("k", "ES", -3, true, 6)];
    assert t2[..2] == t1 && t1[..1] == t0 && t0[..0] == [];
    assert t2 == [PositionRow("k", "ES", 2, true, 5), Gap, PositionRow("k", "ES", -3, true, 6)];
    assert Run(t0) == State(Gate(0, 0, true, Some(5)), Book(map["k" := PositionOf("ES", 2)], map["k" := 5]), {});
    assert Run(t1).gate == Gate(1, 0, false, Some(5));
    assert Run(t2) == Run(t1);
    assert LatestTime(t1) == 5 && Boundary(t1) == 0 && ClockRuns(t1) && ClockAdvances(t1);
    assert Streaming(t0) && Streaming(t1);
    assert Delivered(t0) == map["k" := PositionOf("ES", 2)];
    assert Delivered(t1) == Delivered(t0);
    assert Delivered(t2) == Delivered(t1)["k" := PositionOf("ES", -3)];
    assert RowsSeenSince(Run(t2).book, 5) == map["k" := PositionOf("ES", 2)];
    EsMatches();
    NetWithout(map["k" := PositionOf("ES", 2)], "k", "ES");
    NetWithout(map["k" := PositionOf("ES", -3)], "k", "ES");
    assert map["k" := PositionOf("ES", 2)] - {"k"} == map[] && map["k" := PositionOf("ES", -3)] - {"k"} == map[];
  }

  lemma {:induction false} EsMatches()
    ensures MatchesRoot("ES", "ES")
  {
    assert TrimStart("ES") == "ES" && TrimEnd("ES") == "ES";
    assert Normalised("ES") == "ES";
    assert TrailingDigits("ES") == 0;
  }

  // ---------------------------------------------------------------- the rules on the rows themselves

  /** An unreadable row that names no symbol hides every root's net; one that names a symbol hides its own root's. */
  lemma {:induction false} UnreadableHides(t: seq<Input>, symbol: string, root: string)
    requires Current(t) && (Trim(symbol) == "" || Trim(symbol) == "*" || MatchesRoot(Trim(symbol), root))
    ensures SnapshotNet(Run(t + [BadRow(symbol)]), root) == None
  {
    var u := t + [BadRow(symbol)];
    assert u[..|u| - 1] == t;
    EpochsAgree(t);
    var name := if Trim(symbol) == "" then "*" else Trim(symbol);
    assert name in Run(u).unreadable;
  }

  /** And no other root's. */
  lemma {:induction false} UnreadableSpares(t: seq<Input>, symbol: string, root: string)
    requires Trim(symbol) != "" && Trim(symbol) != "*" && !MatchesRoot(Trim(symbol), root)
    ensures SnapshotNet(Run(t + [BadRow(symbol)]), root) == SnapshotNet(Run(t), root)
  {
    var u := t + [BadRow(symbol)];
    assert u[..|u| - 1] == t;
  }

  /** A row says long, short or flat by the sign of its net, and contributes just that net to its own root. */
  lemma {:induction false} RowTable(symbol: string, net: int, root: string)
    ensures Contribution(PositionOf(symbol, net), root) == if MatchesRoot(symbol, root) then net else 0
    ensures PositionOf(symbol, net).side == if net > 0 then Long else if net < 0 then Short else Flat
    ensures PositionOf(symbol, net).quantity == if net < 0 then -net else net
    ensures PositionOf(symbol, net).symbol == symbol
  {
  }
}
