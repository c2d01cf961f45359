/**
 The gateway client's mixed-stream queue. RPC waits and filtered polls both read
 the one socket; events meant for somebody else wait in a bounded queue, and an
 event dropped at the bound is counted in a gap report on its stream.
 */
module PendingQueue {
  import opened Basics

  const MAX_PENDING_EVENTS := 100_000

  /** The stream a gap names on the wire: one of the four, or an unrecognised text. */
  datatype StreamName = Known(of: Stream) | Unknown(text: string)

  /** The wire type of a data event. Everything not listed is market data. */
  datatype Kind = OrderNotification | BracketUpdate | AccountPnl | InstrumentPnl | TimeBar | Other(name: string)

  /** An event dict: a loss report, or data with an opaque body. */
  datatype Event =
    | Gap(stream: StreamName, skipped: int)
    | Data(kind: Kind, body: int)

  predicate IsOrderEvent(e: Event) {
    if e.Gap? then e.stream == Known(Order) else e.kind.OrderNotification? || e.kind.BracketUpdate?
  }

  predicate IsPnlEvent(e: Event) {
    if e.Gap? then e.stream == Known(Pnl) else e.kind.AccountPnl? || e.kind.InstrumentPnl?
  }

  predicate IsHistoryEvent(e: Event) {
    if e.Gap? then e.stream == Known(History) else e.kind.TimeBar?
  }

  predicate IsMdEvent(e: Event) {
    if e.Gap? then e.stream == Known(Ticker) else e.kind.Other?
  }

  /** The predicate of the poll of stream `s`. */
  predicate Polls(s: Stream, e: Event) {
    match s
    case Ticker => IsMdEvent(e)
    case History => IsHistoryEvent(e)
    case Pnl => IsPnlEvent(e)
    case Order => IsOrderEvent(e)
  }

  function StreamOf(e: Event): Stream {
    if IsOrderEvent(e) then Order
    else if IsPnlEvent(e) then Pnl
    else if IsHistoryEvent(e) then History
    else Ticker
  }

  predicate KnownStream(e: Event) {
    e.Gap? ==> e.stream.Known?
  }

  /**
   The four polls partition the events exactly when a gap names a known stream:
   the poll that takes an event is then the one of its stream. A gap on an unknown
   stream is counted under `ticker` by `StreamOf` but no poll ever takes it.
   */
  lemma {:induction false} PollsPartition(e: Event)
    ensures KnownStream(e) <==> exists s :: Polls(s, e)
    ensures forall s :: Polls(s, e) ==> s == StreamOf(e)
  {
    if KnownStream(e) {
      assert Polls(StreamOf(e), e);
    }
  }

  /** Which poll takes an event, by its wire type; a gap goes to the stream it names. */
  lemma {:induction false} StreamTable(e: Event, s: Stream)
    ensures e.Data? ==> (Polls(Order, e) <==> e.kind == OrderNotification || e.kind == BracketUpdate)
    ensures e.Data? ==> (Polls(Pnl, e) <==> e.kind == AccountPnl || e.kind == InstrumentPnl)
    ensures e.Data? ==> (Polls(History, e) <==> e.kind == TimeBar)
    ensures e.Data? ==> (Polls(Ticker, e) <==> e.kind.Other?)
    ensures e.Gap? ==> (Polls(s, e) <==> e.stream == Known(s))
  {
  }

  lemma {:induction false} UnknownGapIsNeverPolled(text: string, skipped: int)
    ensures StreamOf(Gap(Unknown(text), skipped)) == Ticker && forall s :: !Polls(s, Gap(Unknown(text), skipped))
  {
    PollsPartition(Gap(Unknown(text), skipped));
  }

  // --- weights -------------------------------------------------------------

  function WeightOf(e: Event, s: Stream): int {
    if StreamOf(e) != s then 0 else if e.Gap? then e.skipped else 1
  }

  /** What a sequence of events stands for on stream `s`, loss reports included. */
  function Weight(q: seq<Event>, s: Stream): int {
    if q == [] then 0 else WeightOf(q[0], s) + Weight(q[1..], s)
  }

  lemma {:induction false} WeightConcat(a: seq<Event>, b: seq<Event>, s: Stream)
    ensures Weight(a + b, s) == Weight(a, s) + Weight(b, s)
  {
    if a == [] {
      assert a + b == b;
    } else {
      WeightConcat(a[1..], b, s);
      assert (a + b)[1..] == a[1..] + b;
    }
  }

  lemma {:induction false} WeightRemove(q: seq<Event>, i: nat, s: Stream)
    requires i < |q|
    ensures Weight(q[..i] + q[i + 1..], s) == Weight(q, s) - WeightOf(q[i], s)
  {
    assert q == q[..i] + ([q[i]] + q[i + 1..]);
    WeightConcat(q[..i], [q[i]] + q[i + 1..], s);
    WeightConcat([q[i]], q[i + 1..], s);
    WeightConcat(q[..i], q[i + 1..], s);
  }

  lemma {:induction false} WeightUpdate(q: seq<Event>, i: nat, e: Event, s: Stream)
    requires i < |q|
    ensures Weight(q[i := e], s) == Weight(q, s) - WeightOf(q[i], s) + WeightOf(e, s)
  {
    WeightRemove(q, i, s);
    var u := q[i := e];
    WeightRemove(u, i, s);
    assert u[..i] == q[..i] && u[i + 1..] == q[i + 1..];
  }

  // --- the bounded queue ----------------------------------------------------

  function DataOf(q: seq<Event>): seq<Event> {
    if q == [] then []
    else if q[0].Data? then [q[0]] + DataOf(q[1..])
    else DataOf(q[1..])
  }

  lemma {:induction false} DataConcat(a: seq<Event>, b: seq<Event>)
    ensures DataOf(a + b) == DataOf(a) + DataOf(b)
  {
    if a == [] {
      assert a + b == b;
    } else {
      DataConcat(a[1..], b);
      assert (a + b)[1..] == a[1..] + b;
    }
  }

  lemma {:induction false} GapsHaveNoData(q: seq<Event>)
    requires AllGaps(q)
    ensures DataOf(q) == []
  {
    if q != [] { GapsHaveNoData(q[1..]); }
  }

  /** The oldest data event: everything before it is a loss report. */
  function FirstData(q: seq<Event>): (r: nat)
    ensures r <= |q|
    ensures forall i :: 0 <= i < r ==> q[i].Gap?
    ensures r < |q| ==> q[r].Data?
  {
    if q == [] || q[0].Data? then 0 else 1 + FirstData(q[1..])
  }

  ghost predicate AllGaps(q: seq<Event>) {
    forall i :: 0 <= i < |q| ==> q[i].Gap?
  }

  /** Count one more loss on `stream`: in its first report, or in a new one at the head. */
  function Report(heads: seq<Event>, stream: StreamName): seq<Event>
    requires AllGaps(heads)
  {
    var at := HeadGap(heads, stream);
    if at < |heads| then heads[at := Gap(stream, heads[at].skipped + 1)] else [Gap(stream, 1)] + heads
  }

  /** The first of the loss reports that names `stream`; their number when none does. */
  function HeadGap(heads: seq<Event>, stream: StreamName): (r: nat)
    requires AllGaps(heads)
    ensures r <= |heads|
    ensures forall i :: 0 <= i < r ==> heads[i].stream != stream
    ensures r < |heads| ==> heads[r].stream == stream
  {
    if heads == [] || heads[0].stream == stream then 0 else 1 + HeadGap(heads[1..], stream)
  }

  /** Whether some loss report names `stream`. */
  predicate Names(heads: seq<Event>, stream: StreamName) {
    exists i :: 0 <= i < |heads| && heads[i].Gap? && heads[i].stream == stream
  }

  lemma {:induction false} ReportShape(heads: seq<Event>, stream: StreamName)
    requires AllGaps(heads)
    ensures AllGaps(Report(heads, stream))
    ensures |Report(heads, stream)| == |heads| + (if Names(heads, stream) then 0 else 1)
    ensures forall other :: Names(Report(heads, stream), other) <==> other == stream || Names(heads, other)
  {
    var r := Report(heads, stream);
    var at := HeadGap(heads, stream);
    if at < |heads| {
      assert r[at].stream == stream;
      forall other | Names(heads, other) ensures Names(r, other) {
        var i :| 0 <= i < |heads| && heads[i].stream == other;
        assert r[i].stream == other;
      }
    } else {
      assert r[0].stream == stream;
      forall other | Names(heads, other) ensures Names(r, other) {
        var i :| 0 <= i < |heads| && heads[i].stream == other;
        assert r[i + 1].stream == other;
      }
    }
  }

  lemma {:induction false} ReportWeight(heads: seq<Event>, own: Stream, s: Stream)
    requires AllGaps(heads)
    ensures Weight(Report(heads, Known(own)), s) == Weight(heads, s) + (if s == own then 1 else 0)
  {
    var at := HeadGap(heads, Known(own));
    if at < |heads| {
      GapStream(own, heads[at].skipped);
      GapStream(own, heads[at].skipped + 1);
      WeightUpdate(heads, at, Gap(Known(own), heads[at].skipped + 1), s);
    } else {
      GapStream(own, 1);
      WeightConcat([Gap(Known(own), 1)], heads, s);
    }
  }

  lemma {:induction false} GapStream(s: Stream, n: int)
    ensures StreamOf(Gap(Known(s), n)) == s
  {
    PollsPartition(Gap(Known(s), n));
    assert Polls(s, Gap(Known(s), n));
  }

  /** Drop the oldest data event and count it on its stream, at the head. */
  function DropOldest(q: seq<Event>): seq<Event>
    requires FirstData(q) < |q|
  {
    var first := FirstData(q);
    Report(q[..first], Known(StreamOf(q[first]))) + q[first + 1..]
  }

  lemma {:induction false} SplitAtFirst(q: seq<Event>)
    requires FirstData(q) < |q|
    ensures var first := FirstData(q);
      AllGaps(q[..first]) && q == q[..first] + ([q[first]] + q[first + 1..])
          && ([q[first]] + q[first + 1..])[1..] == q[first + 1..]
  {
  }

  lemma {:induction false} DropData(q: seq<Event>)
    requires FirstData(q) < |q|
    ensures DataOf(q) == [q[FirstData(q)]] + DataOf(DropOldest(q))
  {
    SplitAtFirst(q);
    var first := FirstData(q);
    var tail := q[first + 1..];
    DataConcat(q[..first], [q[first]] + tail);
    GapsHaveNoData(q[..first]);
    var heads := Report(q[..first], Known(StreamOf(q[first])));
    ReportShape(q[..first], Known(StreamOf(q[first])));
    DataConcat(heads, tail);
    GapsHaveNoData(heads);
  }

  lemma {:induction false} DropKeepsWeight(q: seq<Event>, s: Stream)
    requires FirstData(q) < |q|
    ensures Weight(DropOldest(q), s) == Weight(q, s)
  {
    SplitAtFirst(q);
    var first := FirstData(q);
    var tail := q[first + 1..];
    WeightConcat(q[..first], [q[first]] + tail, s);
    var own := StreamOf(q[first]);
    ReportWeight(q[..first], own, s);
    WeightConcat(Report(q[..first], Known(own)), tail, s);
  }

  /** The queue after the drop loop of `_queue_event`. */
  function Shed(q: seq<Event>): seq<Event>
    decreases |DataOf(q)|
  {
    if |q| < MAX_PENDING_EVENTS || FirstData(q) == |q| then q
    else
      DropData(q);
      Shed(DropOldest(q))
  }

  function Enqueue(q: seq<Event>, e: Event): seq<Event> {
    Shed(q) + [e]
  }

  /** Nothing is lost silently: every drop shows up in a loss report. */
  lemma {:induction false} ShedKeepsWeight(q: seq<Event>, s: Stream)
    ensures Weight(Shed(q), s) == Weight(q, s)
    decreases |DataOf(q)|
  {
    if !(|q| < MAX_PENDING_EVENTS || FirstData(q) == |q|) {
      DropData(q);
      DropKeepsWeight(q, s);
      ShedKeepsWeight(DropOldest(q), s);
    }
  }

  /** The surviving data events are the newest ones, in their order. */
  lemma {:induction false} ShedKeepsOrder(q: seq<Event>) returns (dropped: nat)
    ensures dropped <= |DataOf(q)| && DataOf(Shed(q)) == DataOf(q)[dropped..]
    ensures |q| < 100_000 ==> dropped == 0
    decreases |DataOf(q)|
  {
    if |q| < MAX_PENDING_EVENTS || FirstData(q) == |q| {
      dropped := 0;
    } else {
      DropData(q);
      var more := ShedKeepsOrder(DropOldest(q));
      dropped := more + 1;
    }
  }

  /** A loss on `s` is reported ahead of every surviving data event. */
  ghost predicate ReportedAhead(q: seq<Event>, s: Stream) {
    Names(q[..FirstData(q)], Known(s))
  }

  lemma {:induction false} HeadsComeFirst(heads: seq<Event>, tail: seq<Event>, s: Stream)
    requires AllGaps(heads) && Names(heads, Known(s))
    ensures ReportedAhead(heads + tail, s)
  {
    var i :| 0 <= i < |heads| && heads[i].stream == Known(s);
    var q := heads + tail;
    assert forall j :: 0 <= j < |heads| ==> q[j] == heads[j];
    assert q[..FirstData(q)][i] == heads[i];
  }

  /** Every stream that lost an event has its report at the head of what is left. */
  lemma {:induction false} LossIsReportedAhead(q: seq<Event>, s: Stream)
    requires ReportedAhead(q, s) || exists i :: 0 <= i < |DataOf(q)| - |DataOf(Shed(q))| && StreamOf(DataOf(q)[i]) == s
    ensures ReportedAhead(Shed(q), s)
    decreases |DataOf(q)|
  {
    if !(|q| < MAX_PENDING_EVENTS || FirstData(q) == |q|) {
      var first := FirstData(q);
      var heads, own, d := q[..first], StreamOf(q[first]), DropOldest(q);
      DropData(q);
      ReportShape(heads, Known(own));
      if ReportedAhead(q, s) || own == s {
        HeadsComeFirst(Report(heads, Known(own)), q[first + 1..], s);
      } else {
        var i :| 0 <= i < |DataOf(q)| - |DataOf(Shed(q))| && StreamOf(DataOf(q)[i]) == s;
        assert DataOf(q)[i] == DataOf(d)[i - 1];
      }
      LossIsReportedAhead(d, s);
    }
  }

  // --- how many, and how long ---------------------------------------------

  function GapCount(q: seq<Event>): (n: nat)
    ensures n + |DataOf(q)| == |q|
  {
    if q == [] then 0 else (if q[0].Gap? then 1 else 0) + GapCount(q[1..])
  }

  /** Whether `q` has data of `s` that no earlier loss report of `s` precedes. */
  predicate Unreported(q: seq<Event>, s: Stream) {
    q != [] &&
    if q[0].Data? then StreamOf(q[0]) == s || Unreported(q[1..], s)
    else q[0].stream != Known(s) && Unreported(q[1..], s)
  }

  function Bit(b: bool): nat { if b then 1 else 0 }

  /** Loss reports that dropping all the data would add: at most one a stream. */
  function NewReports(q: seq<Event>): (n: nat)
    ensures n <= 4
  {
    Bit(Unreported(q, Ticker)) + Bit(Unreported(q, History)) + Bit(Unreported(q, Pnl)) + Bit(Unreported(q, Order))
  }

  lemma {:induction false} UnreportedSplit(heads: seq<Event>, tail: seq<Event>, s: Stream)
    requires AllGaps(heads)
    ensures Unreported(heads + tail, s) <==> !Names(heads, Known(s)) && Unreported(tail, s)
  {
    if heads == [] {
      assert heads + tail == tail;
    } else {
      assert (heads + tail)[1..] == heads[1..] + tail;
      UnreportedSplit(heads[1..], tail, s);
      assert forall i :: 1 <= i < |heads| ==> heads[i] == heads[1..][i - 1];
      if Names(heads[1..], Known(s)) {
        var i :| 0 <= i < |heads| - 1 && heads[1..][i].stream == Known(s);
        assert heads[i + 1].stream == Known(s);
      }
    }
  }

  /** One drop shortens the queue, or adds the one report its stream lacked. */
  lemma {:induction false} DropProgress(q: seq<Event>)
    requires FirstData(q) < |q|
    ensures var d := DropOldest(q);
      |d| == |q| - 1 + NewReports(q) - NewReports(d) && NewReports(d) <= NewReports(q) <= NewReports(d) + 1
  {
    SplitAtFirst(q);
    var first := FirstData(q);
    var heads, own, tail := q[..first], StreamOf(q[first]), q[first + 1..];
    ReportShape(heads, Known(own));
    forall s ensures Unreported(DropOldest(q), s) <==> s != own && Unreported(q, s) {
      DropUnreported(heads, q[first], tail, s);
    }
    DropUnreported(heads, q[first], tail, own);
  }

  lemma {:induction false} DropUnreported(heads: seq<Event>, e: Event, tail: seq<Event>, s: Stream)
    requires AllGaps(heads) && e.Data?
    ensures Unreported(Report(heads, Known(StreamOf(e))) + tail, s)
       <==> s != StreamOf(e) && Unreported(heads + ([e] + tail), s)
    ensures s == StreamOf(e) ==> (Unreported(heads + ([e] + tail), s) <==> !Names(heads, Known(s)))
  {
    ReportShape(heads, Known(StreamOf(e)));
    UnreportedSplit(Report(heads, Known(StreamOf(e))), tail, s);
    UnreportedSplit(heads, [e] + tail, s);
    assert ([e] + tail)[1..] == tail;
  }

  lemma {:induction false} ReportsNeedData(q: seq<Event>)
    ensures NewReports(q) <= |DataOf(q)|
  {
    if q != [] { ReportsNeedData(q[1..]); }
  }

  /** A queue of loss reports only has nothing left to report. */
  lemma {:induction false} GapsAreReported(q: seq<Event>)
    requires FirstData(q) == |q|
    ensures NewReports(q) == 0 && DataOf(q) == []
  {
    forall s ensures !Unreported(q, s) {
      assert q + [] == q;
      UnreportedSplit(q, [], s);
    }
    GapsHaveNoData(q);
  }

  /**
   The bound holds exactly when the loss reports leave room: the queue ends at
   most 100,000 long if and only if it was short to begin with, or its
   gaps together with the reports its data would need stay under the bound.
   */
  lemma {:induction false} BoundHoldsExactlyWhen(q: seq<Event>, e: Event)
    ensures |Enqueue(q, e)| <= 100_000 <==> |q| < 100_000 || GapCount(q) + NewReports(q) < 100_000
    decreases |DataOf(q)|
  {
    if |q| < MAX_PENDING_EVENTS {
    } else if FirstData(q) == |q| {
      GapsAreReported(q);
    } else {
      var d := DropOldest(q);
      DropData(q);
      DropProgress(q);
      BoundHoldsExactlyWhen(d, e);
      ReportsNeedData(d);
      assert GapCount(d) + NewReports(d) == GapCount(q) + NewReports(q);
    }
  }

  /** Entered at or under the bound, at most five data events are dropped. */
  lemma {:induction false} AtMostFiveDropped(q: seq<Event>)
    requires |q| <= 100_000
    ensures |DataOf(q)| - |DataOf(Shed(q))| <= 5
  {
    DropsBounded(q);
  }

  lemma {:induction false} DropsBounded(q: seq<Event>)
    requires |q| <= MAX_PENDING_EVENTS
    ensures |DataOf(q)| - |DataOf(Shed(q))| <= 1 + NewReports(q)
    decreases |DataOf(q)|
  {
    if |q| == MAX_PENDING_EVENTS && FirstData(q) < |q| {
      DropData(q);
      DropProgress(q);
      var d := DropOldest(q);
      if |d| < MAX_PENDING_EVENTS {
        assert Shed(d) == d;
      } else {
        DropsBounded(d);
      }
    }
  }

  /** The bound is not unconditional: with the queue full of gaps it is passed. */
  lemma {:induction false} BoundCanBePassed()
    ensures exists q: seq<Event>, e ::
              |q| == 100_000 && DataOf(q) != [] && |Enqueue(q, e)| > 100_000
  {
    var gaps := seq(MAX_PENDING_EVENTS - 1, i => Gap(Known(Ticker), 1));
    var last := Data(OrderNotification, 0);
    var q := gaps + [last];
    DataConcat(gaps, [last]);
    GapsHaveNoData(gaps);
    assert DataOf(q) == [last];
    UnreportedSplit(gaps, [last], Order);
    assert !Names(gaps, Known(Order));
    assert Unreported([last], Order);
    BoundHoldsExactlyWhen(q, last);
    assert |Enqueue(q, last)| > MAX_PENDING_EVENTS;
  }
}
