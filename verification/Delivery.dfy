/**
 An attachment's four bounded queues behind one sequence counter: drop the oldest past the
 capacity, count exactly what was lost, and end in the same state on every fan-out path.
 */
module Delivery {
  import opened Basics
  import opened Fanout

  /** An event as a queue sees it: a gap stands for `skipped` lost events. */
  type Event = PlantEvent

  datatype Item = Item(sequence: nat, event: Event)

  /** `skipped` events were lost ahead of `items`, the first of them numbered `gapSequence`. */
  datatype Queue = Queue(items: seq<Item>, skipped: nat, gapSequence: nat)

  function WeightOf(e: Event): nat {
    if e.GapEvent? then e.skipped else 1
  }

  /** Lose the oldest item to the gap. */
  function Lose(q: Queue): Queue
    requires q.items != []
  {
    Queue(q.items[1..], q.skipped + WeightOf(q.items[0].event),
          if q.skipped == 0 then q.items[0].sequence else q.gapSequence)
  }

  function Trim(q: Queue, capacity: nat): Queue
    decreases |q.items|
  {
    if |q.items| <= capacity then q else Trim(Lose(q), capacity)
  }

  function Append(q: Queue, items: seq<Item>): Queue {
    q.(items := q.items + items)
  }

  /** Number events consecutively after `sequence`. */
  function Numbered(events: seq<Event>, sequence: nat): seq<Item> {
    seq(|events|, i requires 0 <= i < |events| => Item(sequence + 1 + i, events[i]))
  }

  /** Hand a whole batch over at once. */
  function PushBatch(q: Queue, events: seq<Event>, sequence: nat, capacity: nat): Queue {
    Trim(Append(q, Numbered(events, sequence)), capacity)
  }

  /** Push the events one by one. */
  function PushEach(q: Queue, events: seq<Event>, sequence: nat, capacity: nat): Queue
    decreases |events|
  {
    if events == [] then q
    else PushEach(PushBatch(q, [events[0]], sequence, capacity), events[1..], sequence + 1, capacity)
  }

  lemma {:induction false} TrimThenAppend(q: Queue, items: seq<Item>, capacity: nat)
    ensures Trim(Append(Trim(q, capacity), items), capacity) == Trim(Append(q, items), capacity)
    decreases |q.items|
  {
    if |q.items| > capacity {
      TrimThenAppend(Lose(q), items, capacity);
      assert (q.items + items)[1..] == q.items[1..] + items;
      assert Lose(Append(q, items)) == Append(Lose(q), items);
    }
  }

  /** A batch leaves the queue, the loss count and the gap's place exactly as single pushes would. */
  lemma {:induction false} BatchEqualsSingles(q: Queue, events: seq<Event>, sequence: nat, capacity: nat)
    requires |q.items| <= capacity
    ensures PushBatch(q, events, sequence, capacity) == PushEach(q, events, sequence, capacity)
    decreases |events|
  {
    if events == [] {
      assert Append(q, Numbered([], sequence)) == q;
    } else {
      var one, rest := Numbered([events[0]], sequence), Numbered(events[1..], sequence + 1);
      TrimIsBounded(Append(q, one), capacity);
      BatchEqualsSingles(PushBatch(q, [events[0]], sequence, capacity), events[1..], sequence + 1, capacity);
      TrimThenAppend(Append(q, one), rest, capacity);
      assert Numbered(events, sequence) == one + rest;
      assert Append(Append(q, one), rest) == Append(q, one + rest);
    }
  }

  lemma {:induction false} TrimIsBounded(q: Queue, capacity: nat)
    ensures |Trim(q, capacity).items| <= capacity
    ensures Trim(q, capacity).items == q.items[|q.items| - |Trim(q, capacity).items|..]
    decreases |q.items|
  {
    if |q.items| > capacity { TrimIsBounded(Lose(q), capacity); }
  }

  function Weight(items: seq<Item>): nat {
    if items == [] then 0 else WeightOf(items[0].event) + Weight(items[1..])
  }

  /** Exact gap accounting: what overflows is in the loss count, weight for weight. */
  lemma {:induction false} TrimConserves(q: Queue, capacity: nat)
    ensures var t := Trim(q, capacity); t.skipped + Weight(t.items) == q.skipped + Weight(q.items)
    decreases |q.items|
  {
    if |q.items| > capacity { TrimConserves(Lose(q), capacity); }
  }

  lemma {:induction false} WeightConcat(a: seq<Item>, b: seq<Item>)
    ensures Weight(a + b) == Weight(a) + Weight(b)
  {
    if a == [] {
      assert a + b == b;
    } else {
      WeightConcat(a[1..], b);
      assert (a + b)[1..] == a[1..] + b;
    }
  }

  /** What a queue stands for grows by exactly what is pushed. */
  lemma {:induction false} PushConserves(q: Queue, events: seq<Event>, sequence: nat, capacity: nat)
    ensures var t := PushBatch(q, events, sequence, capacity);
      t.skipped + Weight(t.items) == q.skipped + Weight(q.items) + Weight(Numbered(events, sequence))
  {
    WeightConcat(q.items, Numbered(events, sequence));
    TrimConserves(Append(q, Numbered(events, sequence)), capacity);
  }

  // --- one attachment -------------------------------------------------------------------

  /** The four queues of an attachment and the counter their records share. */
  datatype Attachment = Attachment(ticker: Queue, history: Queue, pnl: Queue, order: Queue, sequence: nat)

  const EMPTY := Queue([], 0, 0)

  function QueueOf(a: Attachment, s: Stream): Queue {
    match s
    case Ticker => a.ticker
    case History => a.history
    case Pnl => a.pnl
    case Order => a.order
  }

  function WithQueue(a: Attachment, s: Stream, q: Queue): (r: Attachment)
    ensures QueueOf(r, s) == q && r.sequence == a.sequence
    ensures forall x :: x != s ==> QueueOf(r, x) == QueueOf(a, x)
  {
    match s
    case Ticker => a.(ticker := q)
    case History => a.(history := q)
    case Pnl => a.(pnl := q)
    case Order => a.(order := q)
  }

  ghost predicate Bounded(a: Attachment, capacity: nat) {
    forall s :: |QueueOf(a, s).items| <= capacity
  }

  function PushTo(a: Attachment, s: Stream, events: seq<Event>, capacity: nat): Attachment {
    WithQueue(a, s, PushBatch(QueueOf(a, s), events, a.sequence, capacity)).(sequence := a.sequence + |events|)
  }

  /** The gap first when there is one, then the events in order. */
  function PopFrom(a: Attachment, s: Stream): (Attachment, Option<Event>) {
    var q := QueueOf(a, s);
    if q.skipped > 0 then (WithQueue(a, s, q.(skipped := 0)), Some(GapEvent(s, q.skipped)))
    else if q.items == [] then (a, None)
    else (WithQueue(a, s, q.(items := q.items[1..])), Some(q.items[0].event))
  }

  /** The delivery state behind its lock. */
  class Deliveries {
    var state: Attachment
    const capacity: nat

    constructor (capacity: nat)
      ensures state == Attachment(EMPTY, EMPTY, EMPTY, EMPTY, 0)
      ensures this.capacity == if capacity == 0 then 1 else capacity
    {
      this.state := Attachment(EMPTY, EMPTY, EMPTY, EMPTY, 0);
      this.capacity := if capacity == 0 then 1 else capacity;
    }

    /** `push`: number the record from the shared counter, append it, drop the oldest past the capacity. */
    method Push(s: Stream, events: seq<Event>)
      modifies this
      ensures state == PushTo(old(state), s, events, capacity)
    {
      var sequence := state.sequence;
      var queue := Append(QueueOf(state, s), Numbered(events, sequence));
      while |queue.items| > capacity
        invariant Trim(queue, capacity) == PushBatch(QueueOf(old(state), s), events, sequence, capacity)
        decreases |queue.items|
      {
        queue := Lose(queue);
      }
      state := WithQueue(state, s, queue).(sequence := sequence + |events|);
    }

    method Pop(s: Stream) returns (r: Option<Event>)
      modifies this
      ensures (state, r) == PopFrom(old(state), s)
    {
      var queue := QueueOf(state, s);
      if queue.skipped > 0 {
        r := Some(GapEvent(s, queue.skipped));
        state := WithQueue(state, s, queue.(skipped := 0));
      } else if queue.items == [] {
        r := None;
      } else {
        r := Some(queue.items[0].event);
        state := WithQueue(state, s, queue.(items := queue.items[1..]));
      }
    }
  }

  // --- over runs ------------------------------------------------------------------------

  datatype Op = PushOp(stream: Stream, events: seq<Event>) | PopOp(stream: Stream)

  /** The attachment after a run, with the weight pushed to and popped from one stream. */
  datatype Ledger = Ledger(state: Attachment, pushed: nat, popped: nat)

  function Total(events: seq<Event>): nat {
    if events == [] then 0 else WeightOf(events[0]) + Total(events[1..])
  }

  function Serve(l: Ledger, op: Op, s: Stream, capacity: nat): Ledger {
    match op
    case PushOp(x, events) =>
      Ledger(PushTo(l.state, x, events, capacity), if x == s then l.pushed + Total(events) else l.pushed, l.popped)
    case PopOp(x) =>
      var (next, event) := PopFrom(l.state, x);
      Ledger(next, l.pushed, if x == s && event.Some? then l.popped + WeightOf(event.value) else l.popped)
  }

  function ServeAll(ops: seq<Op>, s: Stream, capacity: nat): Ledger {
    if ops == [] then Ledger(Attachment(EMPTY, EMPTY, EMPTY, EMPTY, 0), 0, 0)
    else Serve(ServeAll(ops[..|ops| - 1], s, capacity), ops[|ops| - 1], s, capacity)
  }

  lemma {:induction false} NumberedWeight(events: seq<Event>, sequence: nat)
    ensures Weight(Numbered(events, sequence)) == Total(events)
  {
    if events != [] {
      NumberedWeight(events[1..], sequence + 1);
      assert Numbered(events, sequence)[1..] == Numbered(events[1..], sequence + 1);
    }
  }

  /** Over any run of pushes and pops, what a stream was given was taken, counted as lost, or is queued. */
  lemma {:induction false} ServeConserves(ops: seq<Op>, s: Stream, capacity: nat)
    ensures var l := ServeAll(ops, s, capacity);
      l.pushed == l.popped + QueueOf(l.state, s).skipped + Weight(QueueOf(l.state, s).items)
  {
    if ops != [] {
      var init, op := ops[..|ops| - 1], ops[|ops| - 1];
      ServeConserves(init, s, capacity);
      var a := ServeAll(init, s, capacity).state;
      if op.PushOp? && op.stream == s {
        PushConserves(QueueOf(a, s), op.events, a.sequence, capacity);
        NumberedWeight(op.events, a.sequence);
      }
    }
  }

  // --- the fan-out paths -----------------------------------------------------------------

  /** Attachment `id` after the deliveries of a publish. */
  function Deliver(a: Attachment, log: seq<Put>, id: nat, capacity: nat): Attachment
    decreases |log|
  {
    if log == [] then a
    else if log[0].ToAttachment? && log[0].attachment == id
    then Deliver(PushTo(a, log[0].stream, log[0].events, capacity), log[1..], id, capacity)
    else Deliver(a, log[1..], id, capacity)
  }

  /** The same events pushed one at a time. */
  function Settle(a: Attachment, seen: seq<Seen>, capacity: nat): Attachment
    decreases |seen|
  {
    if seen == [] then a else Settle(PushTo(a, seen[0].stream, [seen[0].event], capacity), seen[1..], capacity)
  }

  lemma {:induction false} SettleConcat(a: Attachment, x: seq<Seen>, y: seq<Seen>, capacity: nat)
    ensures Settle(a, x + y, capacity) == Settle(Settle(a, x, capacity), y, capacity)
    decreases |x|
  {
    if x == [] {
      assert x + y == y;
    } else {
      SettleConcat(PushTo(a, x[0].stream, [x[0].event], capacity), x[1..], y, capacity);
      assert (x + y)[1..] == x[1..] + y;
    }
  }

  lemma {:induction false} PushStaysBounded(a: Attachment, s: Stream, events: seq<Event>, capacity: nat)
    requires Bounded(a, capacity)
    ensures Bounded(PushTo(a, s, events, capacity), capacity)
  {
    TrimIsBounded(Append(QueueOf(a, s), Numbered(events, a.sequence)), capacity);
    var next := PushTo(a, s, events, capacity);
    forall x
      ensures |QueueOf(next, x).items| <= capacity
    {
      assert x != s ==> QueueOf(next, x) == QueueOf(a, x);
    }
  }

  /** Pushing one at a time is pushing each after the other on the stream's queue. */
  lemma {:induction false} SettleIsPushEach(a: Attachment, s: Stream, events: seq<Event>, capacity: nat)
    ensures Settle(a, Each(s, events), capacity)
         == WithQueue(a, s, PushEach(QueueOf(a, s), events, a.sequence, capacity)).(sequence := a.sequence + |events|)
    decreases |events|
  {
    if events == [] {
      assert Each(s, events) == [];
    } else {
      var first := PushTo(a, s, [events[0]], capacity);
      SettleIsPushEach(first, s, events[1..], capacity);
      assert Each(s, events)[1..] == Each(s, events[1..]);
    }
  }

  lemma {:induction false} PushIsSettle(a: Attachment, s: Stream, events: seq<Event>, capacity: nat)
    requires Bounded(a, capacity)
    ensures PushTo(a, s, events, capacity) == Settle(a, Each(s, events), capacity)
  {
    BatchEqualsSingles(QueueOf(a, s), events, a.sequence, capacity);
    SettleIsPushEach(a, s, events, capacity);
  }

  lemma {:induction false} DeliverIsSettle(a: Attachment, log: seq<Put>, id: nat, capacity: nat)
    requires Bounded(a, capacity)
    ensures Deliver(a, log, id, capacity) == Settle(a, Received(log, id), capacity)
    decreases |log|
  {
    if log != [] {
      if log[0].ToAttachment? && log[0].attachment == id {
        var s, events := log[0].stream, log[0].events;
        var next := PushTo(a, s, events, capacity);
        PushStaysBounded(a, s, events, capacity);
        DeliverIsSettle(next, log[1..], id, capacity);
        PushIsSettle(a, s, events, capacity);
        SettleConcat(a, Each(s, events), Received(log[1..], id), capacity);
      } else {
        DeliverIsSettle(a, log[1..], id, capacity);
        assert Received(log, id) == Received(log[1..], id);
      }
    }
  }

  /**
   The whole-batch path and the event-by-event path leave every attachment's four queues equal,
   gap counts, gap places and record numbers included; and both leave them as the reference
   delivery would when every event is faithful.
   */
  lemma {:induction false} QueuesEqual(a: Attachment, hub: Hub, events: seq<PlantEvent>, id: nat, capacity: nat)
    requires Bounded(a, capacity) && WellFormed(hub)
    ensures Deliver(a, PublishBatch(hub, events), id, capacity) == Deliver(a, PublishSingly(hub, events), id, capacity)
    ensures (forall i :: 0 <= i < |events| ==> Faithful(hub, events[i])) ==>
              Deliver(a, PublishBatch(hub, events), id, capacity) == Settle(a, ReferenceAll(hub, events, id), capacity)
  {
    DeliverIsSettle(a, PublishBatch(hub, events), id, capacity);
    DeliverIsSettle(a, PublishSingly(hub, events), id, capacity);
    BatchEqualsSingly(hub, events, id);
    FanoutTheorem(hub, events);
  }

  // --- the rules on the queues themselves ---------------------------------------------------

  /** An event counts once, a gap as often as it says; a batch is numbered one by one after the counter. */
  lemma {:induction false} WeightTable(e: Event, events: seq<Event>, sequence: nat, i: nat)
    requires i < |events|
    ensures WeightOf(e) == if e.GapEvent? then e.skipped else 1
    ensures Numbered(events, sequence)[i] == Item(sequence + 1 + i, events[i])
  {
  }

  /** Overflow drops the oldest; a new gap takes the number of the first event lost, an open one keeps its own. */
  lemma {:induction false} TrimTable(q: Queue, capacity: nat)
    requires |q.items| > capacity
    ensures var t := Trim(q, capacity);
      && t.items == q.items[|q.items| - capacity..]
      && (q.skipped > 0 ==> t.gapSequence == q.gapSequence)
      && (q.skipped == 0 && !(q.items[0].event.GapEvent? && q.items[0].event.skipped == 0) ==>
            t.gapSequence == q.items[0].sequence)
    decreases |q.items|
  {
    if |q.items| - 1 > capacity {
      TrimTable(Lose(q), capacity);
    }
  }

  /** A gap is taken before any event, as one gap event of its stream, and is then gone. */
  lemma {:induction false} PopTable(a: Attachment, s: Stream)
    ensures var (b, e) := PopFrom(a, s);
      var q, r := QueueOf(a, s), QueueOf(b, s);
      && (q.skipped > 0 ==> e == Some(GapEvent(s, q.skipped)) && r.skipped == 0 && r.items == q.items)
      && (q.skipped == 0 && q.items != [] ==> e == Some(q.items[0].event) && r.items == q.items[1..] && r.skipped == 0)
      && (q.skipped == 0 && q.items == [] ==> e == None && b == a)
      && (forall x :: x != s ==> QueueOf(b, x) == QueueOf(a, x)) && b.sequence == a.sequence
  {
  }
}
