/**
 Fan-out of venue events to attachments. Several fast paths (a sole holder, a shared
 record, broadcast receivers, a whole batch handed over at once) must leave every
 attachment with the events that one plain delivery would.
 */
module Fanout {
  import opened Basics

  datatype PlantEvent =
    | LastTrade(symbol: Option<string>, exchange: Option<string>, body: int)
    | Bbo(symbol: Option<string>, exchange: Option<string>, body: int)
    | OrderBook(symbol: Option<string>, exchange: Option<string>, body: int)
    | TimeBar(symbol: Option<string>, exchange: Option<string>, body: int)
    | AccountPnl(body: int)
    | InstrumentPnl(body: int)
    | OrderNotification(body: int)
    | BracketUpdate(body: int)
    | GapEvent(stream: Stream, skipped: nat)
    | OtherEvent(body: int)

  /** The interest class of a record; every attachment takes `AnyKind`. */
  datatype Kind = AnyKind | TickerKind | BookKind | BarsKind | BracketKind

  datatype Route =
    | Topic(symbol: string, exchange: string, kind: Kind)
    | ToPnl
    | ToOrder
    | ToOther
    | ToGap(stream: Stream)

  function Text(field: Option<string>): string {
    if field.Some? then field.value else ""
  }

  function RouteOf(e: PlantEvent): Route {
    match e
    case LastTrade(s, x, _) => Topic(Text(s), Text(x), TickerKind)
    case Bbo(s, x, _) => Topic(Text(s), Text(x), TickerKind)
    case OrderBook(s, x, _) => Topic(Text(s), Text(x), BookKind)
    case TimeBar(s, x, _) => Topic(Text(s), Text(x), BarsKind)
    case AccountPnl(_) => ToPnl
    case InstrumentPnl(_) => ToPnl
    case OrderNotification(_) => ToOrder
    case BracketUpdate(_) => ToOrder
    case GapEvent(stream, _) => ToGap(stream)
    case OtherEvent(_) => ToOther
  }

  function StreamOf(e: PlantEvent): Stream {
    match e
    case TimeBar(_, _, _) => History
    case AccountPnl(_) => Pnl
    case InstrumentPnl(_) => Pnl
    case OrderNotification(_) => Order
    case BracketUpdate(_) => Order
    case GapEvent(stream, _) => stream
    case _ => Ticker
  }

  /** The interest class an event is published under. */
  function KindOf(e: PlantEvent): Kind {
    match RouteOf(e)
    case Topic(_, _, kind) => kind
    case _ => if e.BracketUpdate? then BracketKind else AnyKind
  }

  // --- topics and holders ---------------------------------------------------------------

  const PNL_SYMBOL := "__pnl__"
  const ORDER_SYMBOL := "__order__"
  const OTHER_SYMBOL := "__other__"

  /** One attachment's place on a topic; a released one is dead. */
  datatype Holder = Holder(live: bool, attachment: nat, kinds: set<Kind>, stream: Stream)

  /** A topic's holders in subscription order and its broadcast receivers. */
  datatype SubState = SubState(symbol: string, exchange: string, receivers: nat, holders: seq<Holder>)

  /** `native` when some session reads typed records, `encoder` when a wire encoder is installed. */
  datatype Hub = Hub(topics: seq<SubState>, native: bool, encoder: bool, transports: set<nat>)

  function TopicStream(symbol: string): Stream {
    if symbol == PNL_SYMBOL then Pnl else if symbol == ORDER_SYMBOL then Order else Ticker
  }

  /** Holders carry the stream of their topic's symbol. */
  ghost predicate WellFormed(hub: Hub) {
    forall i, j :: 0 <= i < |hub.topics| && 0 <= j < |hub.topics[i].holders| ==>
      hub.topics[i].holders[j].stream == TopicStream(hub.topics[i].symbol)
  }

  predicate Wants(h: Holder, kind: Kind) {
    h.live && (kind == AnyKind || kind in h.kinds)
  }

  function Wanted(holders: seq<Holder>, kind: Kind): seq<Holder> {
    if holders == [] then []
    else (if Wants(holders[0], kind) then [holders[0]] else []) + Wanted(holders[1..], kind)
  }

  predicate InternalSymbol(symbol: string) {
    |symbol| >= 2 && symbol[0] == '_' && symbol[1] == '_'
  }

  /** The first topic of a key. */
  function Find(topics: seq<SubState>, symbol: string, exchange: string): Option<SubState> {
    if topics == [] then None
    else if topics[0].symbol == symbol && topics[0].exchange == exchange then Some(topics[0])
    else Find(topics[1..], symbol, exchange)
  }

  // --- what gets delivered -------------------------------------------------------------------

  /** Events handed to one attachment's stream queue, or one record to a topic's receivers. */
  datatype Put =
    | ToAttachment(attachment: nat, stream: Stream, events: seq<PlantEvent>)
    | ToReceivers(symbol: string, exchange: string, event: PlantEvent)

  /** Whether the hub encodes a record before sharing it. */
  predicate Encodes(hub: Hub, e: PlantEvent) {
    !e.GapEvent? && !hub.native && hub.encoder
  }

  /** The queue a shared record goes to: read off the event, or guessed when it is encoded. */
  function SharedStream(hub: Hub, h: Holder, kind: Kind, e: PlantEvent): Stream {
    if !Encodes(hub, e) then StreamOf(e) else if kind == BarsKind then History else h.stream
  }

  function Share(hub: Hub, holders: seq<Holder>, kind: Kind, e: PlantEvent): seq<Put> {
    if holders == [] then []
    else
      [ToAttachment(holders[0].attachment, SharedStream(hub, holders[0], kind, e), [e])]
      + Share(hub, holders[1..], kind, e)
  }

  function Broadcast(st: SubState, e: PlantEvent): seq<Put> {
    if st.receivers > 0 then [ToReceivers(st.symbol, st.exchange, e)] else []
  }

  /** `SubState::publish`. */
  function Publish(hub: Hub, st: SubState, kind: Kind, e: PlantEvent): seq<Put> {
    Share(hub, Wanted(st.holders, kind), kind, e) + Broadcast(st, e)
  }

  /** `SubState::event`: a sole native holder gets the record itself, others share it. */
  function EventTo(hub: Hub, st: SubState, kind: Kind, e: PlantEvent): seq<Put> {
    if st.receivers == 0 then
      var wanted := Wanted(st.holders, kind);
      if |wanted| == 1 && wanted[0].attachment !in hub.transports
      then [ToAttachment(wanted[0].attachment, StreamOf(e), [e])]
      else Share(hub, wanted, kind, e)
    else Publish(hub, st, kind, e)
  }

  /** `publish_symbols`: every topic that is not internal. */
  function PublishSymbols(hub: Hub, topics: seq<SubState>, e: PlantEvent): seq<Put> {
    if topics == [] then []
    else
      (if InternalSymbol(topics[0].symbol) then [] else Publish(hub, topics[0], AnyKind, e))
      + PublishSymbols(hub, topics[1..], e)
  }

  function EventAt(hub: Hub, symbol: string, exchange: string, kind: Kind, e: PlantEvent): seq<Put> {
    match Find(hub.topics, symbol, exchange)
    case None => []
    case Some(st) => EventTo(hub, st, kind, e)
  }

  /** `publish_plant_event`. */
  function PublishEvent(hub: Hub, e: PlantEvent): seq<Put> {
    match RouteOf(e)
    case Topic(symbol, exchange, kind) => EventAt(hub, symbol, exchange, kind, e)
    case ToGap(stream) =>
      if stream == Ticker || stream == History then PublishSymbols(hub, hub.topics, e)
      else EventAt(hub, if stream == Pnl then PNL_SYMBOL else ORDER_SYMBOL, "", AnyKind, e)
    case ToPnl => EventAt(hub, PNL_SYMBOL, "", KindOf(e), e)
    case ToOrder => EventAt(hub, ORDER_SYMBOL, "", KindOf(e), e)
    case ToOther => EventAt(hub, OTHER_SYMBOL, "", KindOf(e), e)
  }

  function PublishSingly(hub: Hub, events: seq<PlantEvent>): seq<Put> {
    if events == [] then [] else PublishEvent(hub, events[0]) + PublishSingly(hub, events[1..])
  }

  predicate SameRoute(events: seq<PlantEvent>, route: Route) {
    forall i :: 0 <= i < |events| ==> RouteOf(events[i]) == route
  }

  /** The sole native holder of a homogeneous batch, when the whole-batch path applies. */
  function BatchHolder(hub: Hub, events: seq<PlantEvent>): Option<Holder> {
    if events == [] then None
    else
      var route := RouteOf(events[0]);
      if !route.Topic? then None
      else match Find(hub.topics, route.symbol, route.exchange)
        case None => None
        case Some(st) =>
          var wanted := Wanted(st.holders, route.kind);
          if st.receivers == 0 && |wanted| == 1 && wanted[0].attachment !in hub.transports && SameRoute(events, route)
          then Some(wanted[0]) else None
  }

  /** `publish_plant_events`. */
  function PublishBatch(hub: Hub, events: seq<PlantEvent>): seq<Put> {
    match BatchHolder(hub, events)
    case Some(only) => [ToAttachment(only.attachment, StreamOf(events[0]), events)]
    case None => PublishSingly(hub, events)
  }

  // --- the reference: deliver each event once to each live holder that wants it -------------------

  datatype Seen = Seen(stream: Stream, event: PlantEvent)

  /** The events attachment `a` is handed, in order, with the queue each goes to. */
  function Received(log: seq<Put>, a: nat): seq<Seen> {
    if log == [] then []
    else
      (if log[0].ToAttachment? && log[0].attachment == a then Each(log[0].stream, log[0].events) else [])
      + Received(log[1..], a)
  }

  function Each(stream: Stream, events: seq<PlantEvent>): seq<Seen> {
    seq(|events|, i requires 0 <= i < |events| => Seen(stream, events[i]))
  }

  /** One copy for every live holder of `a` that wants the kind. */
  function Copies(holders: seq<Holder>, kind: Kind, a: nat, e: PlantEvent): seq<Seen> {
    if holders == [] then []
    else (if holders[0].attachment == a && Wants(holders[0], kind) then [Seen(StreamOf(e), e)] else [])
         + Copies(holders[1..], kind, a, e)
  }

  function CopiesEverywhere(topics: seq<SubState>, a: nat, e: PlantEvent): seq<Seen> {
    if topics == [] then []
    else
      (if InternalSymbol(topics[0].symbol) then [] else Copies(topics[0].holders, AnyKind, a, e))
      + CopiesEverywhere(topics[1..], a, e)
  }

  /** The topic an event belongs to; a ticker or history gap belongs to every symbol topic. */
  function TopicOf(e: PlantEvent): Option<(string, string)> {
    match RouteOf(e)
    case Topic(symbol, exchange, _) => Some((symbol, exchange))
    case ToPnl => Some((PNL_SYMBOL, ""))
    case ToOrder => Some((ORDER_SYMBOL, ""))
    case ToOther => Some((OTHER_SYMBOL, ""))
    case ToGap(Pnl) => Some((PNL_SYMBOL, ""))
    case ToGap(Order) => Some((ORDER_SYMBOL, ""))
    case ToGap(_) => None
  }

  function Reference(hub: Hub, e: PlantEvent, a: nat): seq<Seen> {
    match TopicOf(e)
    case None => CopiesEverywhere(hub.topics, a, e)
    case Some(key) =>
      match Find(hub.topics, key.0, key.1)
      case None => []
      case Some(st) => Copies(st.holders, KindOf(e), a, e)
  }

  function ReferenceAll(hub: Hub, events: seq<PlantEvent>, a: nat): seq<Seen> {
    if events == [] then [] else Reference(hub, events[0], a) + ReferenceAll(hub, events[1..], a)
  }

  /** A market event whose symbol is not one of the internal topics that imply another stream. */
  predicate PlainSymbol(e: PlantEvent) {
    RouteOf(e).Topic? && !e.TimeBar? ==> RouteOf(e).symbol != PNL_SYMBOL && RouteOf(e).symbol != ORDER_SYMBOL
  }

  /** The queue guessed for an encoded record is the event's own exactly for plain symbols. */
  lemma {:induction false} GuessedStreamExactlyWhen(e: PlantEvent, symbol: string, exchange: string)
    requires TopicOf(e) == Some((symbol, exchange)) && !e.GapEvent?
    ensures (if KindOf(e) == BarsKind then History else TopicStream(symbol)) == StreamOf(e) <==> PlainSymbol(e)
  {
    assert PNL_SYMBOL[2] == 'p' && ORDER_SYMBOL[2] == 'o' && OTHER_SYMBOL[4] == 'h' && ORDER_SYMBOL[4] == 'd';
  }

  // --- the paths agree -------------------------------------------------------------------------------

  lemma {:induction false} ReceivedConcat(x: seq<Put>, y: seq<Put>, a: nat)
    ensures Received(x + y, a) == Received(x, a) + Received(y, a)
  {
    if x == [] {
      assert x + y == y;
    } else {
      ReceivedConcat(x[1..], y, a);
      assert (x + y)[1..] == x[1..] + y;
      var head := if x[0].ToAttachment? && x[0].attachment == a then Each(x[0].stream, x[0].events) else [];
      ConcatAssoc(head, Received(x[1..], a), Received(y, a));
    }
  }

  lemma {:induction false} WantedCons(holders: seq<Holder>, kind: Kind)
    requires holders != []
    ensures Wanted(holders, kind) == if Wants(holders[0], kind) then [holders[0]] + Wanted(holders[1..], kind)
        else Wanted(holders[1..], kind)
  {
  }

  /** Sharing a record with the wanted holders gives each attachment its copies. */
  lemma {:induction false} ShareDelivers(hub: Hub, holders: seq<Holder>, kind: Kind, e: PlantEvent, a: nat)
    requires forall i :: 0 <= i < |holders| ==> SharedStream(hub, holders[i], kind, e) == StreamOf(e)
    ensures Received(Share(hub, Wanted(holders, kind), kind, e), a) == Copies(holders, kind, a, e)
  {
    if holders != [] {
      var rest := holders[1..];
      ShareDelivers(hub, rest, kind, e, a);
      WantedCons(holders, kind);
      if Wants(holders[0], kind) {
        var put := ToAttachment(holders[0].attachment, StreamOf(e), [e]);
        assert Share(hub, Wanted(holders, kind), kind, e) == [put] + Share(hub, Wanted(rest, kind), kind, e);
        ReceivedConcat([put], Share(hub, Wanted(rest, kind), kind, e), a);
        assert Each(StreamOf(e), [e]) == [Seen(StreamOf(e), e)];
        assert Received([put], a) == if holders[0].attachment == a then [Seen(StreamOf(e), e)] else [];
      }
    }
  }

  /** Handing the record to a sole holder is the same as sharing it. */
  lemma {:induction false} EventDelivers(hub: Hub, st: SubState, kind: Kind, e: PlantEvent, a: nat)
    requires forall i :: 0 <= i < |st.holders| ==> SharedStream(hub, st.holders[i], kind, e) == StreamOf(e)
    ensures Received(EventTo(hub, st, kind, e), a) == Copies(st.holders, kind, a, e)
    ensures Received(Publish(hub, st, kind, e), a) == Copies(st.holders, kind, a, e)
  {
    ShareDelivers(hub, st.holders, kind, e, a);
    BroadcastIsAside(Share(hub, Wanted(st.holders, kind), kind, e), st, e, a);
    if SoleNative(hub, st, kind) {
      SoleNativeDelivers(hub, st, kind, e, a);
    }
  }

  lemma {:induction false} WantedMember(holders: seq<Holder>, kind: Kind, i: nat)
    requires i < |Wanted(holders, kind)|
    ensures Wanted(holders, kind)[i] in holders
  {
    if Wants(holders[0], kind) {
      if i > 0 { WantedMember(holders[1..], kind, i - 1); }
    } else {
      WantedMember(holders[1..], kind, i);
    }
  }

  lemma {:induction false} FindIsTopic(topics: seq<SubState>, symbol: string, exchange: string)
    requires Find(topics, symbol, exchange).Some?
    ensures exists i :: 0 <= i < |topics| && topics[i] == Find(topics, symbol, exchange).value
    ensures Find(topics, symbol, exchange).value.symbol == symbol
  {
    if topics[0].symbol == symbol && topics[0].exchange == exchange {
    } else {
      FindIsTopic(topics[1..], symbol, exchange);
      var i :| 0 <= i < |topics| - 1 && topics[1..][i] == Find(topics, symbol, exchange).value;
      assert topics[i + 1] == Find(topics, symbol, exchange).value;
    }
  }

  lemma {:induction false} SymbolsDeliver(hub: Hub, topics: seq<SubState>, e: PlantEvent, a: nat)
    requires e.GapEvent?
    ensures Received(PublishSymbols(hub, topics, e), a) == CopiesEverywhere(topics, a, e)
  {
    if topics != [] {
      SymbolsDeliver(hub, topics[1..], e, a);
      var head := if InternalSymbol(topics[0].symbol) then [] else Publish(hub, topics[0], AnyKind, e);
      assert PublishSymbols(hub, topics, e) == head + PublishSymbols(hub, topics[1..], e);
      ReceivedConcat(head, PublishSymbols(hub, topics[1..], e), a);
      if !InternalSymbol(topics[0].symbol) {
        EventDelivers(hub, topics[0], AnyKind, e, a);
      }
    }
  }

  /**
   With the queue read off the event, or guessed right, one event by whichever path is delivered as the
   reference says.
   */
  lemma {:induction false} PlainDelivers(hub: Hub, e: PlantEvent, a: nat)
    requires WellFormed(hub) && (PlainSymbol(e) || !Encodes(hub, e))
    ensures Received(PublishEvent(hub, e), a) == Reference(hub, e, a)
  {
    match TopicOf(e)
    case None => SymbolsDeliver(hub, hub.topics, e, a);
    case Some(key) =>
      assert PublishEvent(hub, e) == EventAt(hub, key.0, key.1, KindOf(e), e);
      match Find(hub.topics, key.0, key.1)
      case None =>
      case Some(st) =>
        FindIsTopic(hub.topics, key.0, key.1);
        if Encodes(hub, e) { GuessedStreamExactlyWhen(e, key.0, key.1); }
        EventDelivers(hub, st, KindOf(e), e, a);
  }

  /** A sole native holder is handed the event itself, which knows its own queue. */
  predicate SoleNative(hub: Hub, st: SubState, kind: Kind) {
    st.receivers == 0 && |Wanted(st.holders, kind)| == 1 && Wanted(st.holders, kind)[0].attachment !in hub.transports
  }

  /** No attachment gets the event as a shared record. */
  predicate Unshared(hub: Hub, e: PlantEvent) {
    match TopicOf(e)
    case None => false
    case Some(key) =>
      match Find(hub.topics, key.0, key.1)
      case None => true
      case Some(st) => Wanted(st.holders, KindOf(e)) == [] || SoleNative(hub, st, KindOf(e))
  }

  predicate Faithful(hub: Hub, e: PlantEvent) {
    PlainSymbol(e) || !Encodes(hub, e) || Unshared(hub, e)
  }

  lemma {:induction false} CopiesAreWanted(holders: seq<Holder>, kind: Kind, a: nat, e: PlantEvent)
    ensures Copies(holders, kind, a, e) == Copies(Wanted(holders, kind), kind, a, e)
  {
    if holders != [] {
      CopiesAreWanted(holders[1..], kind, a, e);
      WantedCons(holders, kind);
      if Wants(holders[0], kind) {
        assert Wanted(holders, kind)[1..] == Wanted(holders[1..], kind);
      }
    }
  }

  /** Whatever queue it goes to, each attachment gets as many copies as the reference gives it. */
  lemma {:induction false} ShareCounts(hub: Hub, holders: seq<Holder>, kind: Kind, e: PlantEvent, a: nat)
    requires forall i :: 0 <= i < |holders| ==> Wants(holders[i], kind)
    ensures |Received(Share(hub, holders, kind, e), a)| == |Copies(holders, kind, a, e)|
  {
    if holders != [] {
      ShareCounts(hub, holders[1..], kind, e, a);
      var put := ToAttachment(holders[0].attachment, SharedStream(hub, holders[0], kind, e), [e]);
      assert Share(hub, holders, kind, e)[1..] == Share(hub, holders[1..], kind, e);
    }
  }

  lemma {:induction false} WantedWant(holders: seq<Holder>, kind: Kind)
    ensures forall i :: 0 <= i < |Wanted(holders, kind)| ==> Wants(Wanted(holders, kind)[i], kind)
  {
    if holders != [] {
      WantedWant(holders[1..], kind);
      WantedCons(holders, kind);
    }
  }

  /** A broadcast reaches receivers, not attachments. */
  lemma {:induction false} BroadcastIsAside(log: seq<Put>, st: SubState, e: PlantEvent, a: nat)
    ensures Received(log + Broadcast(st, e), a) == Received(log, a)
  {
    ReceivedConcat(log, Broadcast(st, e), a);
  }

  lemma {:induction false} SoleNativeDelivers(hub: Hub, st: SubState, kind: Kind, e: PlantEvent, a: nat)
    requires SoleNative(hub, st, kind)
    ensures Received(EventTo(hub, st, kind, e), a) == Copies(st.holders, kind, a, e)
  {
    var wanted := Wanted(st.holders, kind);
    CopiesAreWanted(st.holders, kind, a, e);
    WantedWant(st.holders, kind);
    assert wanted == [wanted[0]] && wanted[1..] == [];
    assert Each(StreamOf(e), [e]) == [Seen(StreamOf(e), e)];
  }

  lemma {:induction false} EventCounts(hub: Hub, st: SubState, kind: Kind, e: PlantEvent, a: nat)
    ensures |Received(EventTo(hub, st, kind, e), a)| == |Copies(st.holders, kind, a, e)|
  {
    if SoleNative(hub, st, kind) {
      SoleNativeDelivers(hub, st, kind, e, a);
    } else {
      var wanted := Wanted(st.holders, kind);
      WantedWant(st.holders, kind);
      ShareCounts(hub, wanted, kind, e, a);
      CopiesAreWanted(st.holders, kind, a, e);
      BroadcastIsAside(Share(hub, wanted, kind, e), st, e, a);
    }
  }

  /** The reference puts every copy in the event's own queue. */
  lemma {:induction false} CopiesOwnQueue(holders: seq<Holder>, kind: Kind, a: nat, e: PlantEvent)
    ensures forall i :: 0 <= i < |Copies(holders, kind, a, e)| ==>
                          Copies(holders, kind, a, e)[i] == Seen(StreamOf(e), e)
  {
    if holders != [] {
      CopiesOwnQueue(holders[1..], kind, a, e);
    }
  }

  /** A shared record whose queue is guessed wrong shows at its first holder. */
  lemma {:induction false} WrongQueueShows(hub: Hub, st: SubState, kind: Kind, e: PlantEvent)
    requires Wanted(st.holders, kind) != [] && !SoleNative(hub, st, kind)
    requires SharedStream(hub, Wanted(st.holders, kind)[0], kind, e) != StreamOf(e)
    ensures var a := Wanted(st.holders, kind)[0].attachment;
            Received(EventTo(hub, st, kind, e), a) != Copies(st.holders, kind, a, e)
  {
    var wanted := Wanted(st.holders, kind);
    var a, stream := wanted[0].attachment, SharedStream(hub, wanted[0], kind, e);
    var log := Share(hub, wanted, kind, e);
    BroadcastIsAside(log, st, e, a);
    assert Each(stream, [e]) == [Seen(stream, e)];
    assert log[0] == ToAttachment(a, stream, [e]);
    assert Received(log, a)[0] == Seen(stream, e);
    CopiesOwnQueue(st.holders, kind, a, e);
  }

  lemma {:induction false} UnfaithfulShows(hub: Hub, e: PlantEvent) returns (a: nat)
    requires WellFormed(hub) && !Faithful(hub, e)
    ensures Received(PublishEvent(hub, e), a) != Reference(hub, e, a)
  {
    var key := TopicOf(e).value;
    var st := Find(hub.topics, key.0, key.1).value;
    var wanted := Wanted(st.holders, KindOf(e));
    FindIsTopic(hub.topics, key.0, key.1);
    WantedMember(st.holders, KindOf(e), 0);
    GuessedStreamExactlyWhen(e, key.0, key.1);
    assert PublishEvent(hub, e) == EventTo(hub, st, KindOf(e), e);
    a := wanted[0].attachment;
    WrongQueueShows(hub, st, KindOf(e), e);
  }

  lemma {:induction false} FaithfulDelivers(hub: Hub, e: PlantEvent, a: nat)
    requires WellFormed(hub) && Faithful(hub, e)
    ensures Received(PublishEvent(hub, e), a) == Reference(hub, e, a)
  {
    if PlainSymbol(e) || !Encodes(hub, e) {
      PlainDelivers(hub, e, a);
    } else {
      var key := TopicOf(e).value;
      assert PublishEvent(hub, e) == EventAt(hub, key.0, key.1, KindOf(e), e);
      if Find(hub.topics, key.0, key.1).Some? {
        var st := Find(hub.topics, key.0, key.1).value;
        if SoleNative(hub, st, KindOf(e)) {
          SoleNativeDelivers(hub, st, KindOf(e), e, a);
        } else {
          EventCounts(hub, st, KindOf(e), e, a);
          CopiesAreWanted(st.holders, KindOf(e), a, e);
        }
      }
    }
  }

  /**
   One event, by whichever path, reaches every attachment as the reference delivers it, if and
   only if it is a plain one, or is not encoded, or no attachment gets it as a shared record.
   */
  lemma {:induction false} EventEqualsReference(hub: Hub, e: PlantEvent)
    requires WellFormed(hub)
    ensures (forall a :: Received(PublishEvent(hub, e), a) == Reference(hub, e, a)) <==> Faithful(hub, e)
  {
    if Faithful(hub, e) {
      forall a: nat
        ensures Received(PublishEvent(hub, e), a) == Reference(hub, e, a)
      {
        FaithfulDelivers(hub, e, a);
      }
    } else {
      var a := UnfaithfulShows(hub, e);
    }
  }

  lemma {:induction false} ReferenceCounts(hub: Hub, e: PlantEvent, a: nat)
    requires WellFormed(hub)
    ensures |Received(PublishEvent(hub, e), a)| == |Reference(hub, e, a)|
  {
    if Faithful(hub, e) {
      FaithfulDelivers(hub, e, a);
    } else {
      var key := TopicOf(e).value;
      var st := Find(hub.topics, key.0, key.1).value;
      assert PublishEvent(hub, e) == EventTo(hub, st, KindOf(e), e);
      EventCounts(hub, st, KindOf(e), e, a);
    }
  }

  /** An attachment's deliveries agree over a run of events exactly when they agree event by event. */
  lemma {:induction false} SinglyExactlyWhen(hub: Hub, events: seq<PlantEvent>, a: nat)
    requires WellFormed(hub)
    ensures Received(PublishSingly(hub, events), a) == ReferenceAll(hub, events, a)
        <==> forall i :: 0 <= i < |events| ==> Received(PublishEvent(hub, events[i]), a) == Reference(hub, events[i], a)
  {
    if events != [] {
      var e, rest := events[0], events[1..];
      SinglyExactlyWhen(hub, rest, a);
      ReceivedConcat(PublishEvent(hub, e), PublishSingly(hub, rest), a);
      ReferenceCounts(hub, e, a);
      SplitEqual(Received(PublishEvent(hub, e), a), Received(PublishSingly(hub, rest), a), Reference(hub, e, a),
          ReferenceAll(hub, rest, a));
      assert forall i :: 1 <= i < |events| ==> events[i] == rest[i - 1];
    }
  }

  lemma {:induction false} SplitEqual<T>(a: seq<T>, x: seq<T>, b: seq<T>, y: seq<T>)
    requires |a| == |b|
    ensures a + x == b + y <==> a == b && x == y
  {
    if a + x == b + y {
      assert a == (a + x)[..|a|] == b;
      assert x == (a + x)[|a|..] == y;
    }
  }

  /** The whole-batch path is the event-by-event path, for every attachment. */
  lemma {:induction false} BatchEqualsSingly(hub: Hub, events: seq<PlantEvent>, a: nat)
    ensures Received(PublishBatch(hub, events), a) == Received(PublishSingly(hub, events), a)
  {
    if BatchHolder(hub, events).Some? {
      var only := BatchHolder(hub, events).value;
      var stream := StreamOf(events[0]);
      SoleHolderSingly(hub, events, RouteOf(events[0]), only, stream, a);
      var log := [ToAttachment(only.attachment, stream, events)];
      assert log[1..] == [];
      assert Received(log, a) == (if only.attachment == a then Each(stream, events) else []) + Received([], a);
    }
  }

  lemma {:induction false} SoleHolderSingly(hub: Hub, events: seq<PlantEvent>, route: Route, only: Holder,
      stream: Stream, a: nat)
    requires route.Topic? && SameRoute(events, route) && Find(hub.topics, route.symbol, route.exchange).Some?
    requires var st := Find(hub.topics, route.symbol, route.exchange).value;
      st.receivers == 0 && Wanted(st.holders, route.kind) == [only] && only.attachment !in hub.transports
    requires stream == if route.kind == BarsKind then History else Ticker
    ensures Received(PublishSingly(hub, events), a) == if only.attachment == a then Each(stream, events) else []
  {
    if events != [] {
      var e := events[0];
      SoleHolderSingly(hub, events[1..], route, only, stream, a);
      assert StreamOf(e) == stream;
      assert PublishEvent(hub, e) == [ToAttachment(only.attachment, stream, [e])];
      ReceivedConcat(PublishEvent(hub, e), PublishSingly(hub, events[1..]), a);
      assert PublishEvent(hub, e)[1..] == [];
      assert Each(stream, events) == Each(stream, [e]) + Each(stream, events[1..]);
    }
  }

  /**
   With subscriptions fixed, the batch path leaves every attachment the sequence that delivering
   each event once to each live holder of matching interest would, queue by queue, if and only
   if every event of the batch is faithful.
   */
  lemma {:induction false} FanoutTheorem(hub: Hub, events: seq<PlantEvent>)
    requires WellFormed(hub)
    ensures (forall a :: Received(PublishBatch(hub, events), a) == ReferenceAll(hub, events, a))
        <==> forall i :: 0 <= i < |events| ==> Faithful(hub, events[i])
  {
    if forall i :: 0 <= i < |events| ==> Faithful(hub, events[i]) {
      forall a: nat
        ensures Received(PublishBatch(hub, events), a) == ReferenceAll(hub, events, a)
      {
        forall i | 0 <= i < |events|
          ensures Received(PublishEvent(hub, events[i]), a) == Reference(hub, events[i], a)
        {
          FaithfulDelivers(hub, events[i], a);
        }
        SinglyExactlyWhen(hub, events, a);
        BatchEqualsSingly(hub, events, a);
      }
    } else {
      var i :| 0 <= i < |events| && !Faithful(hub, events[i]);
      var a := UnfaithfulShows(hub, events[i]);
      SinglyExactlyWhen(hub, events, a);
      BatchEqualsSingly(hub, events, a);
    }
  }

  /** The input: an encoded trade whose symbol is the PnL topic's name goes to the PnL queue of a wire attachment. */
  lemma {:induction false} InternalNameMisdirects()
    ensures var hub := Hub([SubState(PNL_SYMBOL, "CME", 0, [Holder(true, 0, {TickerKind}, Pnl)])], false, true, {0});
            var e := LastTrade(Some(PNL_SYMBOL), Some("CME"), 1);
            WellFormed(hub) && Received(PublishEvent(hub, e), 0) == [Seen(Pnl, e)]
                && Reference(hub, e, 0) == [Seen(Ticker, e)]
  {
    var holder := Holder(true, 0, {TickerKind}, Pnl);
    var st := SubState(PNL_SYMBOL, "CME", 0, [holder]);
    var hub := Hub([st], false, true, {0});
    var e := LastTrade(Some(PNL_SYMBOL), Some("CME"), 1);
    assert Find(hub.topics, PNL_SYMBOL, "CME") == Some(st);
    assert [holder][1..] == [];
    assert Wanted([holder], TickerKind) == [holder];
    assert PublishEvent(hub, e) == Share(hub, [holder], TickerKind, e) == [ToAttachment(0, Pnl, [e])];
    assert [ToAttachment(0, Pnl, [e])][1..] == [];
    assert Each(Pnl, [e]) == [Seen(Pnl, e)];
  }

  /** `SubState::publish`, with the number of consumers it reached. */
  method PublishLoop(hub: Hub, st: SubState, kind: Kind, e: PlantEvent) returns (log: seq<Put>, count: nat)
    ensures log == Publish(hub, st, kind, e)
    ensures count == |Wanted(st.holders, kind)| + st.receivers
  {
    log, count := ShareLoop(hub, st.holders, kind, e);
    log := log + Broadcast(st, e);
    count := count + st.receivers;
  }

  method ShareLoop(hub: Hub, holders: seq<Holder>, kind: Kind, e: PlantEvent) returns (log: seq<Put>, count: nat)
    ensures log == Share(hub, Wanted(holders, kind), kind, e)
    ensures count == |Wanted(holders, kind)|
  {
    log, count := [], 0;
    var todo := holders;
    while todo != []
      invariant Done(hub, holders, kind, e, log, todo)
      invariant count + |Wanted(todo, kind)| == |Wanted(holders, kind)|
      decreases |todo|
    {
      var h := todo[0];
      DoneNext(hub, holders, kind, e, log, todo);
      if Wants(h, kind) {
        log, count := log + [ToAttachment(h.attachment, SharedStream(hub, h, kind, e), [e])], count + 1;
      }
      todo := todo[1..];
    }
  }

  ghost predicate Done(hub: Hub, holders: seq<Holder>, kind: Kind, e: PlantEvent, log: seq<Put>, todo: seq<Holder>) {
    log + Share(hub, Wanted(todo, kind), kind, e) == Share(hub, Wanted(holders, kind), kind, e)
  }

  lemma {:induction false} DoneNext(hub: Hub, holders: seq<Holder>, kind: Kind, e: PlantEvent, log: seq<Put>,
      todo: seq<Holder>)
    requires todo != [] && Done(hub, holders, kind, e, log, todo)
    ensures Wants(todo[0], kind) ==>
              Done(hub, holders, kind, e,
                  log + [ToAttachment(todo[0].attachment, SharedStream(hub, todo[0], kind, e), [e])], todo[1..])
    ensures !Wants(todo[0], kind) ==> Done(hub, holders, kind, e, log, todo[1..])
    ensures |Wanted(todo, kind)| == (if Wants(todo[0], kind) then 1 else 0) + |Wanted(todo[1..], kind)|
  {
    ShareNext(hub, todo, kind, e);
    if Wants(todo[0], kind) {
      var put := ToAttachment(todo[0].attachment, SharedStream(hub, todo[0], kind, e), [e]);
      ConcatAssoc(log, [put], Share(hub, Wanted(todo[1..], kind), kind, e));
    }
  }

  lemma {:induction false} ShareNext(hub: Hub, holders: seq<Holder>, kind: Kind, e: PlantEvent)
    requires holders != []
    ensures var h := holders[0];
            var put := if Wants(h, kind) then [ToAttachment(h.attachment, SharedStream(hub, h, kind, e), [e])] else [];
            && Share(hub, Wanted(holders, kind), kind, e) == put + Share(hub, Wanted(holders[1..], kind), kind, e)
            && |Wanted(holders, kind)| == |put| + |Wanted(holders[1..], kind)|
  {
    WantedCons(holders, kind);
    if Wants(holders[0], kind) {
      assert Wanted(holders, kind)[1..] == Wanted(holders[1..], kind);
    }
  }

  // --- the rules on the events and holders themselves -----------------------------------------------

  /** Where an event goes, by its type: the topic, the interest class and the queue. */
  lemma {:induction false} RouteTable(e: PlantEvent)
    ensures e.LastTrade? || e.Bbo? ==> RouteOf(e) == Topic(Text(e.symbol), Text(e.exchange), TickerKind)
    ensures e.OrderBook? ==> RouteOf(e) == Topic(Text(e.symbol), Text(e.exchange), BookKind)
    ensures e.TimeBar? ==> RouteOf(e) == Topic(Text(e.symbol), Text(e.exchange), BarsKind)
    ensures e.LastTrade? || e.Bbo? || e.OrderBook? ==> StreamOf(e) == Ticker && KindOf(e) == RouteOf(e).kind
    ensures e.TimeBar? ==> StreamOf(e) == History && KindOf(e) == BarsKind
    ensures e.AccountPnl? || e.InstrumentPnl? ==> TopicOf(e) == Some(("__pnl__", "")) && StreamOf(e) == Pnl
    ensures e.OrderNotification? || e.BracketUpdate? ==> TopicOf(e) == Some(("__order__", "")) && StreamOf(e) == Order
    ensures e.AccountPnl? || e.InstrumentPnl? || e.OrderNotification? ==> KindOf(e) == AnyKind
    ensures e.BracketUpdate? ==> KindOf(e) == BracketKind
    ensures e.OtherEvent? ==> TopicOf(e) == Some(("__other__", "")) && StreamOf(e) == Ticker && KindOf(e) == AnyKind
    ensures e.GapEvent? ==> StreamOf(e) == e.stream && KindOf(e) == AnyKind
    ensures e.GapEvent? ==> (TopicOf(e).None? <==> e.stream == Ticker || e.stream == History)
    ensures e == GapEvent(Pnl, 1) ==> TopicOf(e) == Some(("__pnl__", ""))
    ensures e == GapEvent(Order, 1) ==> TopicOf(e) == Some(("__order__", ""))
  {
  }

  /** A record is encoded for sharing when there is an encoder and nobody reads typed records; a gap never is. */
  lemma {:induction false} EncodedExactlyWhen(hub: Hub, h: Holder, e: PlantEvent, kind: Kind)
    ensures Encodes(hub, e) <==> hub.encoder && !hub.native && !e.GapEvent?
    ensures SharedStream(hub, h, kind, e)
         == if hub.native || !hub.encoder || e.GapEvent? then StreamOf(e)
            else if kind == BarsKind then History else h.stream
  {
  }

  /** A field that is absent reads as empty. */
  lemma {:induction false} TextTable(s: string)
    ensures Text(Some(s)) == s && Text(None) == ""
  {
  }

  /**
   A holder more adds one copy, in the event's own queue, when it is live, of `a`, and takes every
   kind or this one.
   */
  lemma {:induction false} CopiesAppend(holders: seq<Holder>, h: Holder, kind: Kind, a: nat, e: PlantEvent)
    ensures Copies([], kind, a, e) == []
    ensures Copies(holders + [h], kind, a, e)
         == Copies(holders, kind, a, e)
            + (if h.live && h.attachment == a && (kind == AnyKind || kind in h.kinds)
               then [Seen(StreamOf(e), e)] else [])
  {
    if holders == [] {
      assert [h][1..] == [] && holders + [h] == [h];
    } else {
      CopiesAppend(holders[1..], h, kind, a, e);
      assert (holders + [h])[1..] == holders[1..] + [h];
      var first := if Wants(holders[0], kind) && holders[0].attachment == a then [Seen(StreamOf(e), e)] else [];
      var last := if Wants(h, kind) && h.attachment == a then [Seen(StreamOf(e), e)] else [];
      ConcatAssoc(first, Copies(holders[1..], kind, a, e), last);
    }
  }

  /** A topic is found by its own symbol and exchange, the first when there are several. */
  lemma {:induction false} FindTable(topics: seq<SubState>, symbol: string, exchange: string, i: nat)
    requires i <= |topics|
    requires forall j :: 0 <= j < i ==> topics[j].symbol != symbol || topics[j].exchange != exchange
    requires i < |topics| ==> topics[i].symbol == symbol && topics[i].exchange == exchange
    ensures Find(topics, symbol, exchange) == if i < |topics| then Some(topics[i]) else None
  {
    if i > 0 {
      FindTable(topics[1..], symbol, exchange, i - 1);
    }
  }

  /** A ticker or history gap reaches an attachment of every topic whose name does not begin with two underscores. */
  lemma {:induction false} GapReaches(topics: seq<SubState>, a: nat, e: PlantEvent)
    ensures CopiesEverywhere(topics, a, e) != [] <==>
            exists i :: 0 <= i < |topics| && !("__" <= topics[i].symbol)
                        && Copies(topics[i].holders, AnyKind, a, e) != []
  {
    if topics != [] {
      GapReaches(topics[1..], a, e);
      var rest := topics[1..];
      assert InternalSymbol(topics[0].symbol) <==> "__" <= topics[0].symbol;
      if i :| 0 <= i < |rest| && !("__" <= rest[i].symbol) && Copies(rest[i].holders, AnyKind, a, e) != [] {
        assert topics[i + 1] == rest[i];
      }
      if i :| 0 <= i < |topics| && !("__" <= topics[i].symbol) && Copies(topics[i].holders, AnyKind, a, e) != [] {
        if i > 0 {
          assert rest[i - 1] == topics[i];
        }
      }
    }
  }

  /** A record reaches a topic's broadcast receivers once, when there are any. */
  lemma {:induction false} ReceiversTable(hub: Hub, st: SubState, kind: Kind, e: PlantEvent)
    ensures (exists i :: 0 <= i < |EventTo(hub, st, kind, e)| && EventTo(hub, st, kind, e)[i].ToReceivers?)
       <==> st.receivers > 0
    ensures st.receivers > 0 ==>
              EventTo(hub, st, kind, e)
              == Share(hub, Wanted(st.holders, kind), kind, e) + [ToReceivers(st.symbol, st.exchange, e)]
    ensures Publish(hub, st, kind, e) == Share(hub, Wanted(st.holders, kind), kind, e)
                                         + (if st.receivers > 0 then [ToReceivers(st.symbol, st.exchange, e)] else [])
  {
    ShareToAttachments(hub, Wanted(st.holders, kind), kind, e);
    if st.receivers > 0 {
      var log := EventTo(hub, st, kind, e);
      assert log[|log| - 1].ToReceivers?;
    }
  }

  lemma {:induction false} ShareToAttachments(hub: Hub, holders: seq<Holder>, kind: Kind, e: PlantEvent)
    ensures forall i :: 0 <= i < |Share(hub, holders, kind, e)| ==> Share(hub, holders, kind, e)[i].ToAttachment?
  {
    if holders != [] {
      ShareToAttachments(hub, holders[1..], kind, e);
    }
  }
}
