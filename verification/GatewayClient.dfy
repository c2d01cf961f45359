/**
 RPC waits, filtered polls and disconnect over one socket and one pending queue,
 and the conservation law over whole runs of them.
 */
module GatewayClient {
  import opened Basics
  import opened PendingQueue

  /** How one `_read_frame` ends: a frame, a timeout, or a wire failure. */
  datatype Read =
    | EventFrame(event: Event)
    | ErrorFrame(id: nat, code: Code)
    | Reply(id: nat)
    | ReadTimeout
    | ReadFailure(code: Code)

  datatype Code = Eof | FrameTooLarge | TimedOut | Protocol | NotConnected | NotSent | Venue(text: string)

  datatype Op =
    | Connect
    | Rpc(sent: bool)
    | Poll(stream: Stream, timed: bool)
    | Disconnect(sent: bool)

  datatype End =
    | Done
    | Response
    | Returned(event: Event)
    | NoEvent
    | Failed(code: Code)

  datatype Client = Client(open: bool, nextId: nat, pending: seq<Event>, inbox: seq<Read>)

  /** A call's outcome: the client after it, how it ended, and how many reads it took. */
  datatype Outcome = Outcome(client: Client, end: End, used: nat)

  predicate Fatal(code: Code) {
    code == Eof || code == FrameTooLarge
  }

  function Fail(c: Client, code: Code, used: nat): Outcome {
    Outcome(if Fatal(code) then c.(open := false) else c, Failed(code), used)
  }

  function Skip(o: Outcome): Outcome {
    o.(used := o.used + 1)
  }

  /** Read until the reply to `id`; events that arrive meanwhile are queued. */
  function AwaitReply(c: Client, id: nat): (o: Outcome)
    ensures !o.end.Returned?
    ensures o.used <= |c.inbox| && o.client.inbox == c.inbox[o.used..]
    decreases |c.inbox|
  {
    if c.inbox == [] then Outcome(c.(open := false), Failed(TimedOut), 0)
    else
      var next := c.(inbox := c.inbox[1..]);
      match c.inbox[0]
      case EventFrame(e) => Skip(AwaitReply(next.(pending := Enqueue(c.pending, e)), id))
      case ErrorFrame(of, code) => Fail(next, if of != id then Protocol else code, 1)
      case Reply(of) => if of == id then Outcome(next, Response, 1) else Fail(next, Protocol, 1)
      case ReadTimeout => Outcome(next.(open := false), Failed(TimedOut), 1)
      case ReadFailure(code) => Fail(next, code, 1)
  }

  function CallRpc(c: Client, sent: bool): (o: Outcome)
    ensures !o.end.Returned?
    ensures o.used <= |c.inbox| && o.client.inbox == c.inbox[o.used..]
  {
    if !c.open then Outcome(c, Failed(NotConnected), 0)
    else if !sent then Outcome(c.(nextId := c.nextId + 1, open := false), Failed(NotSent), 0)
    else AwaitReply(c.(nextId := c.nextId + 1), c.nextId)
  }

  /** The first queued event the poll of `s` takes; the length when there is none. */
  function FirstMatch(q: seq<Event>, s: Stream): (k: nat)
    ensures k <= |q|
    ensures forall i :: 0 <= i < k ==> !Polls(s, q[i])
    ensures k < |q| ==> Polls(s, q[k])
  {
    if q == [] || Polls(s, q[0]) then 0 else 1 + FirstMatch(q[1..], s)
  }

  function AwaitEvent(c: Client, s: Stream, timed: bool): (o: Outcome)
    ensures o.used <= |c.inbox| && o.client.inbox == c.inbox[o.used..]
    decreases |c.inbox|
  {
    if c.inbox == [] then Outcome(c, NoEvent, 0)
    else
      var next := c.(inbox := c.inbox[1..]);
      match c.inbox[0]
      case EventFrame(e) =>
        if Polls(s, e) then Outcome(next, Returned(e), 1)
        else
          var queued := next.(pending := Enqueue(c.pending, e));
          if timed then Skip(AwaitEvent(queued, s, timed)) else Outcome(queued, NoEvent, 1)
      case ErrorFrame(_, code) => Fail(next, code, 1)
      case Reply(_) => if timed then Skip(AwaitEvent(next, s, timed)) else Outcome(next, NoEvent, 1)
      case ReadTimeout => Outcome(next, NoEvent, 1)
      case ReadFailure(code) => Fail(next, code, 1)
  }

  function CallPoll(c: Client, s: Stream, timed: bool): (o: Outcome)
    ensures o.used <= |c.inbox| && o.client.inbox == c.inbox[o.used..]
  {
    if !c.open then Outcome(c, Failed(NotConnected), 0)
    else
      var k := FirstMatch(c.pending, s);
      if k < |c.pending| then
        Outcome(c.(pending := c.pending[k + 1..] + c.pending[..k]), Returned(c.pending[k]), 0)
      else AwaitEvent(c, s, timed)
  }

  function CallDisconnect(c: Client, sent: bool): (o: Outcome)
    ensures o.used <= |c.inbox| && o.client.inbox == c.inbox[o.used..]
  {
    if !c.open then Outcome(c, Done, 0)
    else
      var o := CallRpc(c, sent);
      Outcome(o.client.(open := false, pending := []), Done, o.used)
  }

  function Step(c: Client, op: Op): (o: Outcome)
    ensures o.used <= |c.inbox| && o.client.inbox == c.inbox[o.used..]
  {
    match op
    case Connect => Outcome(c.(open := true), Done, 0)
    case Rpc(sent) => CallRpc(c, sent)
    case Poll(s, timed) => CallPoll(c, s, timed)
    case Disconnect(sent) => CallDisconnect(c, sent)
  }

  // --- conservation ----------------------------------------------------------

  function EventsIn(inbox: seq<Read>): seq<Event> {
    if inbox == [] then []
    else (if inbox[0].EventFrame? then [inbox[0].event] else []) + EventsIn(inbox[1..])
  }

  function Out(end: End): seq<Event> {
    if end.Returned? then [end.event] else []
  }

  /** What an explicit disconnect throws away. */
  function Discarded(c: Client, op: Op): seq<Event> {
    if op.Disconnect? && c.open then CallRpc(c, op.sent).client.pending else []
  }

  ghost predicate Balanced(c: Client, o: Outcome, s: Stream)
    requires o.used <= |c.inbox|
  {
    Weight(c.pending, s) + Weight(EventsIn(c.inbox[..o.used]), s) == Weight(o.client.pending, s) + Weight(Out(o.end), s)
  }

  lemma {:induction false} EnqueueWeight(q: seq<Event>, e: Event, s: Stream)
    ensures Weight(Enqueue(q, e), s) == Weight(q, s) + WeightOf(e, s)
  {
    ShedKeepsWeight(q, s);
    WeightConcat(Shed(q), [e], s);
  }

  /** Taking one more read adds its event, if it is one, to what was received. */
  lemma {:induction false} FirstRead(inbox: seq<Read>, used: nat, s: Stream)
    requires 0 < used <= |inbox|
    ensures Weight(EventsIn(inbox[..used]), s)
         == (if inbox[0].EventFrame? then WeightOf(inbox[0].event, s) else 0)
             + Weight(EventsIn(inbox[1..][..used - 1]), s)
  {
    assert inbox[..used][1..] == inbox[1..][..used - 1];
    if inbox[0].EventFrame? {
      WeightConcat([inbox[0].event], EventsIn(inbox[1..][..used - 1]), s);
    } else {
      assert [] + EventsIn(inbox[1..][..used - 1]) == EventsIn(inbox[1..][..used - 1]);
    }
  }

  /** The weight of the event the next read brings, if it brings one. */
  function Incoming(r: Read, s: Stream): int {
    if r.EventFrame? then WeightOf(r.event, s) else 0
  }

  /** A call that ends at its first read balances when that read is accounted for. */
  lemma {:induction false} OneReadBalances(c: Client, o: Outcome, s: Stream)
    requires c.inbox != [] && o.used == 1
    requires Weight(c.pending, s) + Incoming(c.inbox[0], s) == Weight(o.client.pending, s) + Weight(Out(o.end), s)
    ensures Balanced(c, o, s)
  {
    FirstRead(c.inbox, 1, s);
  }

  /** A call that goes on after a read balances when the rest of it does. */
  lemma {:induction false} SkipBalances(c: Client, next: Client, o: Outcome, s: Stream)
    requires c.inbox != [] && next.inbox == c.inbox[1..] && o.used <= |next.inbox|
    requires Weight(next.pending, s) == Weight(c.pending, s) + Incoming(c.inbox[0], s)
    requires Balanced(next, o, s)
    ensures Balanced(c, Skip(o), s)
  {
    FirstRead(c.inbox, o.used + 1, s);
  }

  lemma {:induction false} AwaitReplyBalances(c: Client, id: nat, s: Stream)
    ensures Balanced(c, AwaitReply(c, id), s)
    decreases |c.inbox|
  {
    if c.inbox == [] {
    } else if c.inbox[0].EventFrame? {
      var e := c.inbox[0].event;
      var next := c.(inbox := c.inbox[1..], pending := Enqueue(c.pending, e));
      EnqueueWeight(c.pending, e, s);
      AwaitReplyBalances(next, id, s);
      SkipBalances(c, next, AwaitReply(next, id), s);
    } else {
      OneReadBalances(c, AwaitReply(c, id), s);
    }
  }

  lemma {:induction false} AwaitEventBalances(c: Client, of: Stream, timed: bool, s: Stream)
    ensures Balanced(c, AwaitEvent(c, of, timed), s)
    decreases |c.inbox|
  {
    if c.inbox == [] {
    } else if c.inbox[0].EventFrame? && !Polls(of, c.inbox[0].event) {
      var e := c.inbox[0].event;
      var next := c.(inbox := c.inbox[1..], pending := Enqueue(c.pending, e));
      EnqueueWeight(c.pending, e, s);
      if timed {
        AwaitEventBalances(next, of, timed, s);
        SkipBalances(c, next, AwaitEvent(next, of, timed), s);
      } else {
        OneReadBalances(c, Outcome(next, NoEvent, 1), s);
      }
    } else if c.inbox[0].Reply? && timed {
      var next := c.(inbox := c.inbox[1..]);
      AwaitEventBalances(next, of, timed, s);
      SkipBalances(c, next, AwaitEvent(next, of, timed), s);
    } else {
      OneReadBalances(c, AwaitEvent(c, of, timed), s);
    }
  }

  /** Every call conserves each stream: received = returned + discarded + change of the queue. */
  lemma {:induction false} StepBalances(c: Client, op: Op, s: Stream)
    ensures var o := Step(c, op);
      Weight(c.pending, s) + Weight(EventsIn(c.inbox[..o.used]), s)
      == Weight(o.client.pending, s) + Weight(Out(o.end), s) + Weight(Discarded(c, op), s)
  {
    match op
    case Connect =>
    case Rpc(sent) =>
      AwaitReplyBalances(c.(nextId := c.nextId + 1), c.nextId, s);
    case Poll(of, timed) =>
      var k := FirstMatch(c.pending, of);
      if k < |c.pending| {
        WeightConcat(c.pending[k + 1..], c.pending[..k], s);
        WeightConcat(c.pending[..k], c.pending[k + 1..], s);
        WeightRemove(c.pending, k, s);
      } else {
        AwaitEventBalances(c, of, timed, s);
      }
    case Disconnect(sent) =>
      AwaitReplyBalances(c.(nextId := c.nextId + 1), c.nextId, s);
  }

  /** Everything a run received, returned and discarded, and the client it leaves. */
  datatype Ledger = Ledger(client: Client, received: seq<Event>, returned: seq<Event>, discarded: seq<Event>)

  function Run(c: Client, ops: seq<Op>): Ledger
    decreases |ops|
  {
    if ops == [] then Ledger(c, [], [], [])
    else
      var o := Step(c, ops[0]);
      var rest := Run(o.client, ops[1..]);
      Ledger(rest.client, EventsIn(c.inbox[..o.used]) + rest.received,
             Out(o.end) + rest.returned, Discarded(c, ops[0]) + rest.discarded)
  }

  /**
   Over every interleaving of RPC waits, polls, connects and disconnects, and every
   outcome of every read, each stream's weight received is the weight returned plus
   the weight discarded by a disconnect plus the weight still queued.
   */
  lemma {:induction false} RunConserves(c: Client, ops: seq<Op>, s: Stream)
    ensures var run := Run(c, ops);
      Weight(c.pending, s) + Weight(run.received, s)
      == Weight(run.returned, s) + Weight(run.discarded, s) + Weight(run.client.pending, s)
    decreases |ops|
  {
    if ops != [] {
      var o := Step(c, ops[0]);
      var rest := Run(o.client, ops[1..]);
      StepBalances(c, ops[0], s);
      RunConserves(o.client, ops[1..], s);
      WeightConcat(EventsIn(c.inbox[..o.used]), rest.received, s);
      WeightConcat(Out(o.end), rest.returned, s);
      WeightConcat(Discarded(c, ops[0]), rest.discarded, s);
    }
  }

  /** A poll returns only events of its stream, and the first one queued when there is any. */
  lemma {:induction false} PollReturnsFirstMatch(c: Client, s: Stream, timed: bool)
    requires c.open
    ensures var end := CallPoll(c, s, timed).end;
      && (end.Returned? ==> Polls(s, end.event) && StreamOf(end.event) == s)
      && (forall k :: 0 <= k < |c.pending| && Polls(s, c.pending[k]) && FirstMatch(c.pending, s) >= k
            ==> end == Returned(c.pending[k]))
  {
    AwaitEventReturnsOwn(c, s, timed);
    if CallPoll(c, s, timed).end.Returned? {
      PollsPartition(CallPoll(c, s, timed).end.event);
    }
  }

  lemma {:induction false} AwaitEventReturnsOwn(c: Client, s: Stream, timed: bool)
    ensures var end := AwaitEvent(c, s, timed).end; end.Returned? ==> Polls(s, end.event)
    decreases |c.inbox|
  {
    if c.inbox != [] {
      var next := c.(inbox := c.inbox[1..]);
      if c.inbox[0].EventFrame? && timed {
        AwaitEventReturnsOwn(next.(pending := Enqueue(c.pending, c.inbox[0].event)), s, timed);
      } else if c.inbox[0].Reply? && timed {
        AwaitEventReturnsOwn(next, s, timed);
      }
    }
  }

  // --- how a call ends ----------------------------------------------------------

  /** The first read that is not an event; the number of reads when all are. */
  ghost predicate FirstAnswerAt(inbox: seq<Read>, k: nat) {
    && k <= |inbox|
    && (forall i :: 0 <= i < k ==> inbox[i].EventFrame?)
    && (k < |inbox| ==> !inbox[k].EventFrame?)
  }

  /** The queue after the events of these reads were queued in turn. */
  function QueuedAll(q: seq<Event>, frames: seq<Read>): seq<Event> {
    if frames == [] then q
    else
      var before := QueuedAll(q, frames[..|frames| - 1]);
      var last := frames[|frames| - 1];
      if last.EventFrame? then Enqueue(before, last.event) else before
  }

  lemma {:induction false} QueuedFirst(q: seq<Event>, e: Event, rest: seq<Read>)
    ensures QueuedAll(q, [EventFrame(e)] + rest) == QueuedAll(Enqueue(q, e), rest)
    decreases |rest|
  {
    var all := [EventFrame(e)] + rest;
    if rest == [] {
      assert all[..0] == [] && all == [EventFrame(e)];
    } else {
      QueuedFirst(q, e, rest[..|rest| - 1]);
      assert all[..|all| - 1] == [EventFrame(e)] + rest[..|rest| - 1];
    }
  }

  /**
   An RPC of an open client whose request was sent, told from the inbox: the first read that is
   no event decides. A reply with the request's id answers it, an error with that id fails it
   with the error's code, any other id is a protocol error, and a timeout or a dry inbox closes the
   socket, as do an end of stream and an oversized frame; nothing else does. The events before
   it are queued in order, and the id is used up.
   */
  lemma {:induction false} RpcTable(c: Client, k: nat)
    requires c.open && FirstAnswerAt(c.inbox, k)
    ensures var o := CallRpc(c, true);
      && (o.end == Response <==> k < |c.inbox| && c.inbox[k] == Reply(c.nextId))
      && (k < |c.inbox| && c.inbox[k].Reply? && c.inbox[k].id != c.nextId ==> o.end == Failed(Protocol))
      && (k < |c.inbox| && c.inbox[k].ErrorFrame? ==>
            o.end == Failed(if c.inbox[k].id == c.nextId then c.inbox[k].code else Protocol))
      && (k < |c.inbox| && c.inbox[k].ReadFailure? ==> o.end == Failed(c.inbox[k].code))
      && (k == |c.inbox| || c.inbox[k].ReadTimeout? ==> o.end == Failed(TimedOut))
      && (o.client.open <==>
            && k < |c.inbox| && !c.inbox[k].ReadTimeout?
            && o.end != Failed(Eof) && o.end != Failed(FrameTooLarge))
      && o.client.nextId == c.nextId + 1
      && o.client.pending == QueuedAll(c.pending, c.inbox[..k])
      && o.used == (if k < |c.inbox| then k + 1 else k)
  {
    ReplyTable(c.(nextId := c.nextId + 1), c.nextId, k);
    ReplyQueues(c.(nextId := c.nextId + 1), c.nextId, k);
  }

  lemma {:induction false} ReplyTable(c: Client, id: nat, k: nat)
    requires c.open && FirstAnswerAt(c.inbox, k)
    ensures var o := AwaitReply(c, id);
      && (o.end == Response <==> k < |c.inbox| && c.inbox[k] == Reply(id))
      && (k < |c.inbox| && c.inbox[k].Reply? && c.inbox[k].id != id ==> o.end == Failed(Protocol))
      && (k < |c.inbox| && c.inbox[k].ErrorFrame? ==>
            o.end == Failed(if c.inbox[k].id == id then c.inbox[k].code else Protocol))
      && (k < |c.inbox| && c.inbox[k].ReadFailure? ==> o.end == Failed(c.inbox[k].code))
      && (k == |c.inbox| || c.inbox[k].ReadTimeout? ==> o.end == Failed(TimedOut))
      && (o.client.open <==>
            && k < |c.inbox| && !c.inbox[k].ReadTimeout?
            && o.end != Failed(Eof) && o.end != Failed(FrameTooLarge))
      && o.client.nextId == c.nextId
      && o.used == (if k < |c.inbox| then k + 1 else k)
    decreases |c.inbox|
  {
    if k > 0 {
      ReplyTable(c.(inbox := c.inbox[1..], pending := Enqueue(c.pending, c.inbox[0].event)), id, k - 1);
    }
  }

  lemma {:induction false} ReplyQueues(c: Client, id: nat, k: nat)
    requires FirstAnswerAt(c.inbox, k)
    ensures AwaitReply(c, id).client.pending == QueuedAll(c.pending, c.inbox[..k])
    decreases |c.inbox|
  {
    if k > 0 {
      var e, rest := c.inbox[0].event, c.inbox[1..];
      ReplyQueues(c.(inbox := rest, pending := Enqueue(c.pending, e)), id, k - 1);
      FramesQueued(c.pending, c.inbox, k);
    } else {
      assert c.inbox[..0] == [];
    }
  }

  /** The first of the frames, then the others. */
  lemma {:induction false} FramesQueued(q: seq<Event>, inbox: seq<Read>, n: nat)
    requires 0 < n <= |inbox|
    ensures QueuedAll(q, inbox[..n])
         == QueuedAll(if inbox[0].EventFrame? then Enqueue(q, inbox[0].event) else q, inbox[1..][..n - 1])
  {
    var rest := inbox[1..][..n - 1];
    assert inbox[..n] == [inbox[0]] + rest;
    if inbox[0].EventFrame? {
      QueuedFirst(q, inbox[0].event, rest);
    } else {
      QueuedSkip(q, inbox[0], rest);
    }
  }

  /** A call that cannot send: a closed client is left alone, a failed write closes it and uses up the id. */
  lemma {:induction false} UnsentTable(c: Client, sent: bool)
    requires !c.open || !sent
    ensures var o := CallRpc(c, sent);
      && o.used == 0 && o.client.pending == c.pending && !o.client.open
      && o.end == Failed(if c.open then NotSent else NotConnected)
      && o.client.nextId == if c.open then c.nextId + 1 else c.nextId
  {
  }

  /** A read that ends a poll of stream `s`; an untimed poll takes one read at most. */
  predicate EndsPoll(r: Read, s: Stream, timed: bool) {
    !timed || r.ErrorFrame? || r.ReadTimeout? || r.ReadFailure? || (r.EventFrame? && Polls(s, r.event))
  }

  ghost predicate FirstEndAt(inbox: seq<Read>, s: Stream, timed: bool, k: nat) {
    && k <= |inbox|
    && (forall i :: 0 <= i < k ==> !EndsPoll(inbox[i], s, timed))
    && (k < |inbox| ==> EndsPoll(inbox[k], s, timed))
  }

  /** Whether the event of a read is left in the queue by a poll of `s`. */
  predicate Leaves(r: Read, s: Stream) {
    r.EventFrame? && !Polls(s, r.event)
  }

  /**
   The socket half of a poll, told from the inbox: the first read that ends it decides. An event of
   the stream is returned, an error or a wire failure is raised with its code, anything else
   is no event; only an end of stream or an oversized frame closes the socket.
   */
  lemma {:induction false} PollTable(c: Client, s: Stream, timed: bool, k: nat)
    requires c.open && FirstEndAt(c.inbox, s, timed, k)
    ensures var o := AwaitEvent(c, s, timed);
      && (o.end.Returned? <==> k < |c.inbox| && c.inbox[k].EventFrame? && Polls(s, c.inbox[k].event))
      && (o.end.Returned? ==> o.end.event == c.inbox[k].event)
      && (k < |c.inbox| && c.inbox[k].ErrorFrame? ==> o.end == Failed(c.inbox[k].code))
      && (k < |c.inbox| && c.inbox[k].ReadFailure? ==> o.end == Failed(c.inbox[k].code))
      && (k == |c.inbox| || c.inbox[k].ReadTimeout? || c.inbox[k].Reply? || Leaves(c.inbox[k], s) ==> o.end == NoEvent)
      && (o.client.open <==> o.end != Failed(Eof) && o.end != Failed(FrameTooLarge))
      && o.client.nextId == c.nextId
      && o.used == (if k < |c.inbox| then k + 1 else k)
    decreases |c.inbox|
  {
    if k > 0 {
      PollTable(PollNext(c, s), s, timed, k - 1);
    }
  }

  /** A timed poll after one read that does not end it. */
  function PollNext(c: Client, s: Stream): Client
    requires c.inbox != []
  {
    var pending := if Leaves(c.inbox[0], s) then Enqueue(c.pending, c.inbox[0].event) else c.pending;
    c.(inbox := c.inbox[1..], pending := pending)
  }

  lemma {:induction false} PollGoesOn(c: Client, s: Stream)
    requires c.inbox != [] && !EndsPoll(c.inbox[0], s, true)
    ensures AwaitEvent(c, s, true).client == AwaitEvent(PollNext(c, s), s, true).client
  {
  }

  lemma {:induction false} PollLeaves(c: Client, s: Stream, timed: bool)
    requires c.inbox == [] || EndsPoll(c.inbox[0], s, timed)
    ensures c.inbox != [] && Leaves(c.inbox[0], s) ==>
              AwaitEvent(c, s, timed).client.pending == Enqueue(c.pending, c.inbox[0].event)
    ensures c.inbox == [] || !Leaves(c.inbox[0], s) ==> AwaitEvent(c, s, timed).client.pending == c.pending
  {
  }

  /** The events of other streams read on the way, the last read included, are queued in order. */
  lemma {:induction false} PollQueues(c: Client, s: Stream, timed: bool, k: nat)
    requires FirstEndAt(c.inbox, s, timed, k)
    ensures AwaitEvent(c, s, timed).client.pending
         == QueuedAll(c.pending, c.inbox[..if k < |c.inbox| && Leaves(c.inbox[k], s) then k + 1 else k])
    decreases |c.inbox|
  {
    if k > 0 {
      PollGoesOn(c, s);
      PollQueues(PollNext(c, s), s, timed, k - 1);
      FramesQueued(c.pending, c.inbox, if k < |c.inbox| && Leaves(c.inbox[k], s) then k + 1 else k);
    } else {
      PollLeaves(c, s, timed);
      if c.inbox != [] && Leaves(c.inbox[0], s) {
        FramesQueued(c.pending, c.inbox, 1);
        assert c.inbox[1..][..0] == [];
      } else {
        assert c.inbox[..0] == [];
      }
    }
  }

  lemma {:induction false} QueuedSkip(q: seq<Event>, r: Read, rest: seq<Read>)
    requires !r.EventFrame?
    ensures QueuedAll(q, [r] + rest) == QueuedAll(q, rest)
    decreases |rest|
  {
    var all := [r] + rest;
    if rest == [] {
      assert all[..0] == [] && all == [r];
    } else {
      QueuedSkip(q, r, rest[..|rest| - 1]);
      assert all[..|all| - 1] == [r] + rest[..|rest| - 1];
    }
  }

  /**
   A poll of a closed client touches nothing. Of an open one it takes the first queued event of its
   stream and moves those before it behind the rest, or goes on to the socket.
   */
  lemma {:induction false} PollCallTable(c: Client, s: Stream, timed: bool, k: nat)
    requires k <= |c.pending| && forall i :: 0 <= i < k ==> !Polls(s, c.pending[i])
    requires k < |c.pending| ==> Polls(s, c.pending[k])
    ensures var o := CallPoll(c, s, timed);
      && (!c.open ==> o == Outcome(c, Failed(NotConnected), 0))
      && (c.open && k < |c.pending| ==>
            o == Outcome(c.(pending := c.pending[k + 1..] + c.pending[..k]), Returned(c.pending[k]), 0))
      && (c.open && k == |c.pending| ==> o == AwaitEvent(c, s, timed))
  {
    assert FirstMatch(c.pending, s) == k;
  }

  /** A connect opens the client and touches nothing else. */
  lemma {:induction false} ConnectTable(c: Client)
    ensures Step(c, Connect) == Outcome(Client(true, c.nextId, c.pending, c.inbox), Done, 0)
  {
  }

  /**
   A disconnect of an open client makes its call, then closes and empties the queue; of a closed
   one it does nothing.
   */
  lemma {:induction false} DisconnectTable(c: Client, sent: bool)
    ensures var o := Step(c, Disconnect(sent));
      && o.end == Done
      && (!c.open ==> o.client == c && o.used == 0)
      && (c.open ==> !o.client.open && o.client.pending == [] && o.client.nextId == c.nextId + 1)
      && (c.open ==> o.used == Step(c, Rpc(sent)).used)
  {
    if c.open && sent {
      var k := FirstAnswer(c.inbox);
      RpcTable(c, k);
    }
  }

  lemma {:induction false} FirstAnswer(inbox: seq<Read>) returns (k: nat)
    ensures FirstAnswerAt(inbox, k)
  {
    k := 0;
    if inbox != [] && inbox[0].EventFrame? {
      k := FirstAnswer(inbox[1..]);
      k := k + 1;
    }
  }

  // --- the client object -------------------------------------------------------

  /** The index of the oldest data event. */
  method FindData(q: seq<Event>) returns (first: nat)
    ensures first == FirstData(q)
  {
    first := 0;
    while first < |q| && q[first].Gap?
      invariant 0 <= first <= |q|
      invariant AllGaps(q[..first]) && FirstData(q) >= first
    {
      first := first + 1;
    }
  }

  /** One more loss on `stream`: in its own report, or in a new one in front. */
  method CountLoss(heads: seq<Event>, stream: StreamName) returns (r: seq<Event>)
    requires AllGaps(heads)
    ensures r == Report(heads, stream)
  {
    var i := 0;
    while i < |heads| && heads[i].stream != stream
      invariant 0 <= i <= |heads|
      invariant forall j :: 0 <= j < i ==> heads[j].stream != stream
    {
      i := i + 1;
    }
    assert i == HeadGap(heads, stream);
    r := if i < |heads| then heads[i := Gap(stream, heads[i].skipped + 1)] else [Gap(stream, 1)] + heads;
  }

  class GatewaySession {
    var open: bool
    var nextId: nat
    var pending: seq<Event>
    var inbox: seq<Read>

    constructor (inbox: seq<Read>)
      ensures View() == Client(false, 1, [], inbox)
    {
      this.open, this.nextId, this.pending, this.inbox := false, 1, [], inbox;
    }

    ghost function View(): Client
      reads this
    {
      Client(open, nextId, pending, inbox)
    }

    /** `_queue_event`: drop the oldest data past the bound, then append. */
    method QueueEvent(e: Event)
      modifies this`pending
      ensures pending == Enqueue(old(pending), e)
    {
      while |pending| >= MAX_PENDING_EVENTS
        invariant Shed(pending) == Shed(old(pending))
        decreases |DataOf(pending)|
      {
        var first := FindData(pending);
        if first == |pending| {
          break;
        }
        DropData(pending);
        var heads := CountLoss(pending[..first], Known(StreamOf(pending[first])));
        pending := heads + pending[first + 1..];
      }
      pending := pending + [e];
    }

    /** `_rpc_unlocked`: send, then read until the matching reply. */
    method RpcWait(sent: bool) returns (end: End)
      modifies this
      ensures View() == CallRpc(old(View()), sent).client
      ensures end == CallRpc(old(View()), sent).end
    {
      if !open {
        return Failed(NotConnected);
      }
      var id := nextId;
      nextId := nextId + 1;
      if !sent {
        open := false;
        return Failed(NotSent);
      }
      ghost var start := View();
      ghost var want := AwaitReply(start, id);
      while inbox != []
        invariant open && AwaitReply(View(), id).client == want.client && AwaitReply(View(), id).end == want.end
        decreases |inbox|
      {
        var frame := inbox[0];
        inbox := inbox[1..];
        match frame {
          case EventFrame(e) =>
            QueueEvent(e);
          case ErrorFrame(of, code) =>
            var shown := if of != id then Protocol else code;
            if Fatal(shown) { open := false; }
            return Failed(shown);
          case Reply(of) =>
            if of == id { return Response; }
            return Failed(Protocol);
          case ReadTimeout =>
            open := false;
            return Failed(TimedOut);
          case ReadFailure(code) =>
            if Fatal(code) { open := false; }
            return Failed(code);
        }
      }
      open := false;
      return Failed(TimedOut);
    }

    /** The queue half of a poll: rotate through it once, taking the first match. */
    method TakeQueued(s: Stream) returns (end: End)
      modifies this`pending
      ensures var k := FirstMatch(old(pending), s);
        if k < |old(pending)|
            then end == Returned(old(pending)[k]) && pending == old(pending)[k + 1..] + old(pending)[..k]
        else end == NoEvent && pending == old(pending)
    {
      var n := |pending|;
      for k := 0 to n
        invariant pending == old(pending)[k..] + old(pending)[..k]
        invariant forall i :: 0 <= i < k ==> !Polls(s, old(pending)[i])
      {
        var e := pending[0];
        assert e == old(pending)[k];
        pending := pending[1..];
        if Polls(s, e) {
          assert pending == old(pending)[k + 1..] + old(pending)[..k];
          return Returned(e);
        }
        pending := pending + [e];
        assert pending == old(pending)[k + 1..] + old(pending)[..k + 1];
      }
      assert pending == old(pending);
      return NoEvent;
    }

    /** The socket half of a poll: read until a match, the timeout or a failure. */
    method ReadEvent(s: Stream, timed: bool) returns (end: End)
      requires open
      modifies this
      ensures View() == AwaitEvent(old(View()), s, timed).client
      ensures end == AwaitEvent(old(View()), s, timed).end
    {
      ghost var want := AwaitEvent(View(), s, timed);
      while inbox != []
        invariant open && AwaitEvent(View(), s, timed).client == want.client
            && AwaitEvent(View(), s, timed).end == want.end
        decreases |inbox|
      {
        var frame := inbox[0];
        inbox := inbox[1..];
        match frame {
          case EventFrame(e) =>
            if Polls(s, e) { return Returned(e); }
            QueueEvent(e);
            if !timed { return NoEvent; }
          case ErrorFrame(_, code) =>
            if Fatal(code) { open := false; }
            return Failed(code);
          case Reply(_) =>
            if !timed { return NoEvent; }
          case ReadTimeout =>
            return NoEvent;
          case ReadFailure(code) =>
            if Fatal(code) { open := false; }
            return Failed(code);
        }
      }
      return NoEvent;
    }

    /** `_poll_filtered_unlocked`. */
    method PollFiltered(s: Stream, timed: bool) returns (end: End)
      modifies this
      ensures View() == CallPoll(old(View()), s, timed).client
      ensures end == CallPoll(old(View()), s, timed).end
    {
      if !open {
        return Failed(NotConnected);
      }
      end := TakeQueued(s);
      if !end.Returned? {
        end := ReadEvent(s, timed);
      }
    }
  }
}
