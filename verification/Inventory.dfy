/**
 Venue inventory without a node: working orders and net positions as a reduction of order
 and PnL events. Finished baskets never come back, and unknown is never taken for flat.
 */
module Inventory {
  import opened Basics

  datatype StatusClass = Working | Filled | OtherTerminal

  /** A text with something in it once stripped. */
  type Name = s: string | s != "" witness "x"

  /** A text field as the venue sends it: absent, only white space, or a value. */
  datatype Text = Absent | Blank | Known(text: Name)

  datatype Side = Buy | Sell

  /** What the order row says once normalised; None when normalisation fails. */
  datatype Fields = Fields(status: StatusClass, kind: Option<string>, quantity: Option<int>, totalFill: Option<int>)

  datatype Terms = Terms(
    symbol: Text, exchange: Option<string>, side: Option<Side>, qty: Option<int>, unfilled: Option<int>,
    status: Option<string>, kind: Option<string>, userTag: Option<string>, price: Option<Option<int>>)

  datatype EventType = NoType | OrderNotification | AccountPnl | InstrumentPnl | OtherType

  /** `netQuantity` is None when the row carries no readable net. */
  datatype Event = Event(
    etype: EventType, basket: Text, fromOrderStream: bool, fields: Option<Fields>, terms: Terms,
    netQuantity: Option<int>)

  datatype WorkingOrder = WorkingOrder(
    basket: string, symbol: string, exchange: string, side: Option<Side>, qty: Option<int>, unfilled: Option<int>,
    status: Option<string>, kind: Option<string>, userTag: Option<string>, price: Option<int>)

  datatype OpenPosition = OpenPosition(symbol: Name, exchange: string, net: int)

  // ---------------------------------------------------------------- rules

  predicate OrderIsGone(status: StatusClass, unfilled: Option<int>, quantity: Option<int>, totalFill: Option<int>) {
    match status
    case Working => false
    case OtherTerminal => true
    case Filled =>
      if unfilled.Some? then unfilled.value <= 0
      else quantity.Some? && totalFill.Some? && quantity.value > 0 && totalFill.value >= quantity.value
  }

  datatype PositionChange = Unreadable | Flat | Net(net: int)

  function PositionChangeOf(net: Option<int>): PositionChange {
    if net.None? then Unreadable else if net.value == 0 then Flat else Net(net.value)
  }

  predicate IsGone(e: Event) {
    e.fields.Some?
        && OrderIsGone(e.fields.value.status, e.terms.unfilled, e.fields.value.quantity, e.fields.value.totalFill)
  }

  function KindOf(e: Event): Option<string> {
    if e.fields.Some? then e.fields.value.kind else e.terms.kind
  }

  predicate IsOrderRow(e: Event) {
    (e.etype.NoType? && !e.basket.Absent?) ||
    (e.etype.OrderNotification? && (!e.basket.Absent? || e.fromOrderStream))
  }

  predicate IsPnlRow(e: Event) {
    e.etype.AccountPnl? || e.etype.InstrumentPnl?
  }

  function Or<T>(x: Option<T>, y: Option<T>): Option<T> {
    if x.Some? then x else y
  }

  // ---------------------------------------------------------------- orders

  datatype Orders = Orders(working: map<string, WorkingOrder>, done: set<string>)

  function SymbolFor(e: Event, prev: Option<WorkingOrder>): string {
    match e.terms.symbol
    case Known(s) => s
    case Blank => ""
    case Absent => if prev.Some? then prev.value.symbol else ""
  }

  function Merged(basket: string, e: Event, symbol: string, prev: Option<WorkingOrder>): WorkingOrder {
    WorkingOrder(
      basket, symbol,
      if e.terms.exchange.Some? then e.terms.exchange.value else if prev.Some? then prev.value.exchange else "CME",
      Or(e.terms.side, if prev.Some? then prev.value.side else None),
      Or(e.terms.qty, if prev.Some? then prev.value.qty else None),
      Or(e.terms.unfilled, if prev.Some? then prev.value.unfilled else None),
      e.terms.status,
      Or(KindOf(e), if prev.Some? then prev.value.kind else None),
      Or(e.terms.userTag, if prev.Some? then prev.value.userTag else None),
      if e.terms.price.Some? then e.terms.price.value else if prev.Some? then prev.value.price else None)
  }

  function IngestOrder(o: Orders, e: Event): Orders {
    if !e.basket.Known? || e.basket.text in o.done then o
    else
      var basket := e.basket.text;
      if IsGone(e) then Orders(o.working - {basket}, o.done + {basket})
      else
        var prev := if basket in o.working then Some(o.working[basket]) else None;
        var symbol := SymbolFor(e, prev);
        if symbol == "" then o else o.(working := o.working[basket := Merged(basket, e, symbol, prev)])
  }

  // ---------------------------------------------------------------- positions

  datatype Positions = Positions(open: map<string, OpenPosition>, unknown: set<string>)

  function ExchangeOf(e: Event): string {
    if e.terms.exchange.Some? then e.terms.exchange.value else "CME"
  }

  function KeyOf(symbol: string, exchange: string): string {
    symbol + "." + exchange
  }

  function IngestPosition(p: Positions, e: Event): Positions {
    if !e.terms.symbol.Known? then p
    else
      var symbol, exchange := e.terms.symbol.text, ExchangeOf(e);
      var key := KeyOf(symbol, exchange);
      match PositionChangeOf(e.netQuantity)
      case Unreadable => Positions(p.open - {key}, p.unknown + {key})
      case Flat => Positions(p.open - {key}, p.unknown - {key})
      case Net(n) => Positions(p.open[key := OpenPosition(symbol, exchange, n)], p.unknown - {key})
  }

  // ---------------------------------------------------------------- the reducer

  datatype Watch = Watch(events: nat, first: Option<int>, until: Option<int>)

  function Watched(w: Watch, now: int): Watch {
    var seen := if w.until.Some? && w.until.value != 0 then w.until.value else now;
    Watch(w.events + 1, if w.first.None? then Some(now) else w.first, Some(if now > seen then now else seen))
  }

  datatype State = State(orders: Orders, positions: Positions, watch: Watch)

  datatype Input = Ingest(e: Event, now: int) | MarkObserved(now: int)

  function Step(s: State, input: Input): State {
    match input
    case MarkObserved(now) => s.(watch := s.watch.(until := Some(now)))
    case Ingest(e, now) =>
      if IsOrderRow(e) then s.(orders := IngestOrder(s.orders, e))
      else if IsPnlRow(e) then
        var positions := if e.etype.InstrumentPnl? then IngestPosition(s.positions, e) else s.positions;
        State(s.orders, positions, Watched(s.watch, now))
      else s
  }

  const START := State(Orders(map[], {}), Positions(map[], {}), Watch(0, None, None))

  function Run(inputs: seq<Input>): State {
    if inputs == [] then START else Step(Run(inputs[..|inputs| - 1]), inputs[|inputs| - 1])
  }

  predicate PnlLive(s: State, settle: int) {
    s.watch.first.Some? && s.watch.until.Some? && s.positions.unknown == {}
    && s.watch.until.value - s.watch.first.value >= settle
  }

  class Inventory {
    var working: map<string, WorkingOrder>
    var done: set<string>
    var open: map<string, OpenPosition>
    var unknown: set<string>
    var pnlEvents: nat
    var pnlFirst: Option<int>
    var observedUntil: Option<int>

    function View(): State
      reads this
    {
      State(Orders(working, done), Positions(open, unknown), Watch(pnlEvents, pnlFirst, observedUntil))
    }

    constructor ()
      ensures View() == START
    {
      working, done, open, unknown := map[], {}, map[], {};
      pnlEvents, pnlFirst, observedUntil := 0, None, None;
    }

    method Mark(now: int)
      modifies this
      ensures View() == Step(old(View()), MarkObserved(now))
    {
      observedUntil := Some(now);
    }

    method Take(e: Event, now: int)
      modifies this
      ensures View() == Step(old(View()), Ingest(e, now))
    {
      if IsOrderRow(e) {
        TakeOrder(e);
        return;
      }
      if IsPnlRow(e) {
        pnlEvents := pnlEvents + 1;
        if pnlFirst.None? {
          pnlFirst := Some(now);
        }
        var seen := if observedUntil.Some? && observedUntil.value != 0 then observedUntil.value else now;
        Mark(if now > seen then now else seen);
      }
      if e.etype.InstrumentPnl? {
        TakePosition(e);
      }
    }

    method TakeOrder(e: Event)
      modifies this
      ensures View() == old(View()).(orders := IngestOrder(old(View()).orders, e))
    {
      if !e.basket.Known? || e.basket.text in done {
        return;
      }
      var basket := e.basket.text;
      if IsGone(e) {
        working := working - {basket};
        done := done + {basket};
        return;
      }
      var prev := if basket in working then Some(working[basket]) else None;
      var symbol := SymbolFor(e, prev);
      if symbol == "" {
        return;
      }
      working := working[basket := Merged(basket, e, symbol, prev)];
    }

    method TakePosition(e: Event)
      modifies this
      ensures View() == old(View()).(positions := IngestPosition(old(View()).positions, e))
    {
      if !e.terms.symbol.Known? {
        return;
      }
      var symbol, exchange := e.terms.symbol.text, ExchangeOf(e);
      var key := KeyOf(symbol, exchange);
      var change := PositionChangeOf(e.netQuantity);
      if change.Unreadable? {
        open := open - {key};
        unknown := unknown + {key};
        return;
      }
      unknown := unknown - {key};
      if change.Flat? {
        open := open - {key};
        return;
      }
      open := open[key := OpenPosition(symbol, exchange, change.net)];
    }
  }

  // ---------------------------------------------------------------- what the orders say

  /** The order rows of one basket, in order. */
  function RowsOf(basket: Name, inputs: seq<Input>): seq<Event> {
    if inputs == [] then []
    else
      var before := RowsOf(basket, inputs[..|inputs| - 1]);
      var last := inputs[|inputs| - 1];
      if last.Ingest? && IsOrderRow(last.e) && last.e.basket == Known(basket) then before + [last.e] else before
  }

  ghost predicate Finished(rows: seq<Event>) {
    exists k :: 0 <= k < |rows| && IsGone(rows[k])
  }

  /** The rows that shape the order: from the first that names the contract, without those whose symbol is blank. */
  ghost function Shaping(rows: seq<Event>): seq<Event> {
    if rows == [] then []
    else
      var before := Shaping(rows[..|rows| - 1]);
      var last := rows[|rows| - 1];
      if last.terms.symbol.Known? || (last.terms.symbol.Absent? && before != []) then before + [last] else before
  }

  /** The last value given. */
  ghost function Latest<T>(rows: seq<Event>, f: Event -> Option<T>): Option<T> {
    if rows == [] then None
    else if f(rows[|rows| - 1]).Some? then f(rows[|rows| - 1])
    else Latest(rows[..|rows| - 1], f)
  }

  ghost function SymbolOf(e: Event): Option<string> {
    if e.terms.symbol.Known? then Some(e.terms.symbol.text) else None
  }

  /** `order` carries, field by field, the last value its shaping rows gave; status is the last row's own. */
  ghost predicate Carries(order: WorkingOrder, basket: string, rows: seq<Event>) {
    && rows != []
    && order.basket == basket
    && Some(order.symbol) == Latest(rows, SymbolOf)
    && order.exchange == (match Latest(rows, (e: Event) => e.terms.exchange) case Some(x) => x case None => "CME")
    && order.side == Latest(rows, (e: Event) => e.terms.side)
    && order.qty == Latest(rows, (e: Event) => e.terms.qty)
    && order.unfilled == Latest(rows, (e: Event) => e.terms.unfilled)
    && order.status == rows[|rows| - 1].terms.status
    && order.kind == Latest(rows, KindOf)
    && order.userTag == Latest(rows, (e: Event) => e.terms.userTag)
    && order.price == (match Latest(rows, (e: Event) => e.terms.price) case Some(x) => x case None => None)
  }

  ghost predicate OrderReflects(o: Orders, basket: Name, rows: seq<Event>) {
    && (basket in o.done <==> Finished(rows))
    && (basket in o.working <==> !Finished(rows) && Shaping(rows) != [])
    && (basket in o.working ==> o.working[basket].symbol != "" && Carries(o.working[basket], basket, Shaping(rows)))
  }

  lemma {:induction false} FinishedGrows(rows: seq<Event>, e: Event)
    ensures Finished(rows + [e]) <==> Finished(rows) || IsGone(e)
  {
    if Finished(rows) {
      var k :| 0 <= k < |rows| && IsGone(rows[k]);
      assert IsGone((rows + [e])[k]);
    }
    if IsGone(e) {
      assert IsGone((rows + [e])[|rows|]);
    }
  }

  lemma {:induction false} MergeCarries(basket: string, e: Event, rows: seq<Event>, prev: Option<WorkingOrder>,
      symbol: string)
    requires prev.None? ==> rows == []
    requires prev.Some? ==> Carries(prev.value, basket, rows)
    requires e.terms.symbol.Known? ==> symbol == e.terms.symbol.text
    requires !e.terms.symbol.Known? ==> prev.Some? && symbol == prev.value.symbol
    ensures Carries(Merged(basket, e, symbol, prev), basket, rows + [e])
  {
    assert (rows + [e])[..|rows|] == rows;
  }

  lemma {:induction false} OwnRow(o: Orders, basket: Name, rows: seq<Event>, e: Event)
    requires OrderReflects(o, basket, rows) && e.basket == Known(basket)
    ensures OrderReflects(IngestOrder(o, e), basket, rows + [e])
  {
    FinishedGrows(rows, e);
    assert (rows + [e])[..|rows|] == rows;
    if basket !in o.done && !IsGone(e) {
      var prev := if basket in o.working then Some(o.working[basket]) else None;
      var symbol := SymbolFor(e, prev);
      if symbol != "" {
        MergeCarries(basket, e, Shaping(rows), prev, symbol);
      }
    }
  }

  /**
   A basket is working exactly when none of its rows finished it and one named its contract;
   every field is the last one given. Nothing that follows brings a finished basket back.
   */
  lemma {:induction false} OrdersTheorem(inputs: seq<Input>, basket: Name)
    ensures OrderReflects(Run(inputs).orders, basket, RowsOf(basket, inputs))
  {
    if inputs != [] {
      var init, last := inputs[..|inputs| - 1], inputs[|inputs| - 1];
      OrdersTheorem(init, basket);
      if last.Ingest? && IsOrderRow(last.e) {
        if last.e.basket == Known(basket) {
          OwnRow(Run(init).orders, basket, RowsOf(basket, init), last.e);
        } else {
          ForeignRow(Run(init).orders, basket, last.e);
        }
      }
    }
  }

  lemma {:induction false} ForeignRow(o: Orders, basket: Name, e: Event)
    requires e.basket != Known(basket)
    ensures basket in IngestOrder(o, e).done <==> basket in o.done
    ensures basket in IngestOrder(o, e).working <==> basket in o.working
    ensures basket in o.working ==> IngestOrder(o, e).working[basket] == o.working[basket]
  {
  }

  lemma {:induction false} ShapingNamed(rows: seq<Event>)
    ensures Shaping(rows) != [] <==> exists k :: 0 <= k < |rows| && rows[k].terms.symbol.Known?
  {
    if rows != [] {
      var init := rows[..|rows| - 1];
      ShapingNamed(init);
      if Shaping(init) != [] {
        var k :| 0 <= k < |init| && init[k].terms.symbol.Known?;
        assert rows[k].terms.symbol.Known?;
      } else {
        assert forall k :: 0 <= k < |init| ==> !init[k].terms.symbol.Known?;
        assert forall k :: 0 <= k < |init| ==> rows[k] == init[k];
      }
    }
  }

  /** Said on the rows alone, and over every continuation of the run. */
  lemma {:induction false} WorkingExactlyWhen(inputs: seq<Input>, basket: Name)
    ensures basket in Run(inputs).orders.working <==>
            && (forall k :: 0 <= k < |RowsOf(basket, inputs)| ==> !IsGone(RowsOf(basket, inputs)[k]))
            && (exists k :: 0 <= k < |RowsOf(basket, inputs)| && RowsOf(basket, inputs)[k].terms.symbol.Known?)
  {
    OrdersTheorem(inputs, basket);
    ShapingNamed(RowsOf(basket, inputs));
  }

  lemma {:induction false} FinishedStaysGone(inputs: seq<Input>, more: seq<Input>, basket: Name)
    requires basket in Run(inputs).orders.done && basket !in Run(inputs).orders.working
    ensures basket in Run(inputs + more).orders.done && basket !in Run(inputs + more).orders.working
    decreases |more|
  {
    if more == [] {
      assert inputs + more == inputs;
    } else {
      var all := inputs + more;
      assert all[..|all| - 1] == inputs + more[..|more| - 1];
      FinishedStaysGone(inputs, more[..|more| - 1], basket);
    }
  }

  // ---------------------------------------------------------------- what the positions say

  predicate IsPositionRow(input: Input, key: string) {
    && input.Ingest?
    && !IsOrderRow(input.e)
    && input.e.etype.InstrumentPnl?
    && input.e.terms.symbol.Known?
    && KeyOf(input.e.terms.symbol.text, ExchangeOf(input.e)) == key
  }

  /** The last readable-symbol position row of a contract. */
  function LastRow(inputs: seq<Input>, key: string): Option<Event> {
    if inputs == [] then None
    else if IsPositionRow(inputs[|inputs| - 1], key) then Some(inputs[|inputs| - 1].e)
    else LastRow(inputs[..|inputs| - 1], key)
  }

  /** Only the last row of a contract counts: a net, flat (absent), or unknown; never unknown and open. */
  lemma {:induction false} PositionsTheorem(inputs: seq<Input>, key: string)
    ensures key in Run(inputs).positions.unknown
        <==> LastRow(inputs, key).Some? && LastRow(inputs, key).value.netQuantity.None?
    ensures key in Run(inputs).positions.open <==>
            LastRow(inputs, key).Some? && LastRow(inputs, key).value.netQuantity.Some?
                && LastRow(inputs, key).value.netQuantity != Some(0)
    ensures key in Run(inputs).positions.open ==>
              && Some(Run(inputs).positions.open[key].net) == LastRow(inputs, key).value.netQuantity
              && Known(Run(inputs).positions.open[key].symbol) == LastRow(inputs, key).value.terms.symbol
              && Run(inputs).positions.open[key].exchange == ExchangeOf(LastRow(inputs, key).value)
  {
    if inputs != [] {
      PositionsTheorem(inputs[..|inputs| - 1], key);
    }
  }

  // ---------------------------------------------------------------- when positions are trusted

  /** The time of the first PnL row. */
  function FirstPnl(inputs: seq<Input>): Option<int> {
    if inputs == [] then None
    else
      var before := FirstPnl(inputs[..|inputs| - 1]);
      var last := inputs[|inputs| - 1];
      if before.None? && IsPnlInput(last) then Some(last.now) else before
  }

  predicate IsPnlInput(input: Input) {
    input.Ingest? && !IsOrderRow(input.e) && IsPnlRow(input.e)
  }

  /** How long the stream was watched: until the last mark, raised by later PnL rows; a zero counts as no time. */
  function WatchedUntil(inputs: seq<Input>): Option<int> {
    if inputs == [] then None
    else
      var before, last := WatchedUntil(inputs[..|inputs| - 1]), inputs[|inputs| - 1];
      if last.MarkObserved? then Some(last.now)
      else if !IsPnlInput(last) then before
      else if before.None? || before.value == 0 || before.value < last.now then Some(last.now)
      else before
  }

  lemma {:induction false} FirstIsFirst(inputs: seq<Input>)
    ensures Run(inputs).watch.first == FirstPnl(inputs)
    ensures Run(inputs).watch.until == WatchedUntil(inputs)
    ensures FirstPnl(inputs).Some? ==> WatchedUntil(inputs).Some?
  {
    if inputs != [] {
      FirstIsFirst(inputs[..|inputs| - 1]);
    }
  }

  /** A reading of the clock that no later mark has replaced. */
  ghost predicate Standing(inputs: seq<Input>, k: int) {
    && 0 <= k < |inputs| && (inputs[k].MarkObserved? || IsPnlInput(inputs[k]))
    && forall j :: k < j < |inputs| ==> !inputs[j].MarkObserved?
  }

  lemma {:induction false} StandingBefore(inputs: seq<Input>, k: int)
    requires inputs != [] && !inputs[|inputs| - 1].MarkObserved? && k < |inputs| - 1
    ensures Standing(inputs, k) <==> Standing(inputs[..|inputs| - 1], k)
  {
    var init := inputs[..|inputs| - 1];
    assert forall j :: 0 <= j < |init| ==> init[j] == inputs[j];
  }

  /** On a positive clock the watched-until time is the highest reading that stands. */
  lemma {:induction false} WatchedIsLatest(inputs: seq<Input>) returns (k: int)
    requires forall j :: 0 <= j < |inputs| ==> inputs[j].now > 0
    ensures WatchedUntil(inputs).Some? ==> Standing(inputs, k) && WatchedUntil(inputs) == Some(inputs[k].now)
    ensures forall j :: Standing(inputs, j) ==>
                          WatchedUntil(inputs).Some? && inputs[j].now <= WatchedUntil(inputs).value
  {
    k := -1;
    if inputs != [] {
      var init, n := inputs[..|inputs| - 1], |inputs| - 1;
      k := WatchedIsLatest(init);
      if inputs[n].MarkObserved? {
        k := n;
        assert forall j :: Standing(inputs, j) ==> j == n;
      } else {
        forall j | 0 <= j < n
          ensures Standing(inputs, j) <==> Standing(init, j)
        {
          StandingBefore(inputs, j);
        }
        if IsPnlInput(inputs[n]) && (WatchedUntil(init).None? || WatchedUntil(init).value < inputs[n].now) {
          k := n;
        }
        assert Standing(inputs, n) <==> IsPnlInput(inputs[n]);
      }
    }
  }

  /**
   Positions are trusted exactly when a PnL row came, the stream was watched for the settle
   time since the first, and the last row of every contract had a readable net.
   */
  lemma {:induction false} LiveExactlyWhen(inputs: seq<Input>, settle: int)
    ensures PnlLive(Run(inputs), settle) <==>
            && FirstPnl(inputs).Some? && WatchedUntil(inputs).Some?
            && WatchedUntil(inputs).value - FirstPnl(inputs).value >= settle
            && (forall key :: LastRow(inputs, key).Some? ==> LastRow(inputs, key).value.netQuantity.Some?)
  {
    FirstIsFirst(inputs);
    var unknown := Run(inputs).positions.unknown;
    forall key
      ensures key in unknown <==> LastRow(inputs, key).Some? && LastRow(inputs, key).value.netQuantity.None?
    {
      PositionsTheorem(inputs, key);
    }
    if unknown != {} {
      var key :| key in unknown;
      assert LastRow(inputs, key).Some? && LastRow(inputs, key).value.netQuantity.None?;
    } else {
      assert forall key :: LastRow(inputs, key).Some? ==> key !in unknown;
      assert forall key :: LastRow(inputs, key).Some? ==> LastRow(inputs, key).value.netQuantity.Some?;
    }
  }

  // ---------------------------------------------------------------- the rules on the rows themselves

  /** When an order row finishes its basket. */
  lemma {:induction false} GoneExactlyWhen(e: Event)
    ensures IsGone(e) <==>
            && e.fields.Some?
            && (e.fields.value.status == OtherTerminal
                || (e.fields.value.status == Filled && e.terms.unfilled.Some? && e.terms.unfilled.value <= 0)
                || (e.fields.value.status == Filled && e.terms.unfilled.None?
                    && e.fields.value.quantity.Some? && e.fields.value.totalFill.Some?
                    && 0 < e.fields.value.quantity.value <= e.fields.value.totalFill.value))
  {
  }

  /** Which rows are read as orders and which as positions, by type, basket and source. */
  lemma {:induction false} DispatchTable(s: State, e: Event, now: int)
    ensures e.etype == NoType && e.basket == Absent ==> Step(s, Ingest(e, now)) == s
    ensures e.etype == OrderNotification && e.basket == Absent && !e.fromOrderStream ==> Step(s, Ingest(e, now)) == s
    ensures e.etype == OtherType ==> Step(s, Ingest(e, now)) == s
    ensures (e.etype == NoType || e.etype == OrderNotification) ==>
              Step(s, Ingest(e, now)).positions == s.positions && Step(s, Ingest(e, now)).watch == s.watch
    ensures (e.etype == NoType || e.etype == OrderNotification) && e.basket.Known? ==>
              Step(s, Ingest(e, now)).orders == IngestOrder(s.orders, e)
    ensures e.etype == AccountPnl ==>
              Step(s, Ingest(e, now)).positions == s.positions && Step(s, Ingest(e, now)).orders == s.orders
    ensures e.etype == InstrumentPnl ==>
              && Step(s, Ingest(e, now)).positions == IngestPosition(s.positions, e)
              && Step(s, Ingest(e, now)).orders == s.orders
    ensures e.etype == AccountPnl || e.etype == InstrumentPnl ==>
              Step(s, Ingest(e, now)).watch.events == s.watch.events + 1
  {
  }

  /** The kind of a row that reads is the normalised one, of one that does not its own. */
  lemma {:induction false} KindTable(e: Event)
    ensures e.fields.Some? ==> KindOf(e) == e.fields.value.kind
    ensures e.fields.None? ==> KindOf(e) == e.terms.kind
  {
  }

  /** A contract is named by symbol, a dot and exchange, which is CME when the row has none. */
  lemma {:induction false} ContractTable(input: Input, key: string)
    requires input.Ingest? && input.e.etype == InstrumentPnl && input.e.terms.symbol.Known?
    ensures IsPositionRow(input, key) <==>
            key == input.e.terms.symbol.text + "." + (match input.e.terms.exchange case Some(x) => x case None => "CME")
  {
  }
}
