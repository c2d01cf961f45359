/**
 Order-book assembly: venue messages (images, clears, solo updates and updates split
 over several messages, interleaved over instruments) become delta batches.
 */
module BookAssembly {
  import opened Basics

  datatype Side = Buy | Sell

  /** A level of a message. `price` is None when the venue's number does not convert. */
  datatype Level = Level(side: Side, price: Option<int>, size: int, orderId: int)

  datatype Kind = Snapshot | Clear | NoBook | Begin | Middle | End | Solo

  /** A message without a kind is an image. */
  datatype Message = Message(instrument: string, kind: Option<Kind>, levels: seq<Level>)

  datatype Fault = NegativeSize | BadPrice

  datatype Action = ClearBook | Add | Update | Delete

  datatype BookOrder = BookOrder(side: Side, price: int, size: nat, orderId: int)

  datatype Delta = Delta(instrument: string, action: Action, order: Option<BookOrder>, snapshot: bool, last: bool)

  datatype Batch = Batch(instrument: string, deltas: seq<Delta>)

  type Outcome = Result<Option<Batch>, Fault>

  function KindOf(m: Message): Kind {
    if m.kind.Some? then m.kind.value else Snapshot
  }

  // ---------------------------------------------------------------- converting levels

  /** Why a level cannot become an order; size is looked at first. */
  function LevelFault(level: Level): Option<Fault> {
    if level.size < 0 then Some(NegativeSize) else if level.price.None? then Some(BadPrice) else None
  }

  /** The first level that does not convert decides the error. */
  function ChangeFault(levels: seq<Level>): Option<Fault> {
    if levels == [] then None
    else
      var before := ChangeFault(levels[..|levels| - 1]);
      if before.Some? then before else LevelFault(levels[|levels| - 1])
  }

  /** An image skips its empty levels before looking at their price. */
  function Occupied(levels: seq<Level>): seq<Level> {
    if levels == [] then []
    else
      var before := Occupied(levels[..|levels| - 1]);
      var level := levels[|levels| - 1];
      if level.size == 0 then before else before + [level]
  }

  function OrderOf(level: Level): BookOrder
    requires LevelFault(level).None?
  {
    BookOrder(level.side, level.price.value, level.size, level.orderId)
  }

  function ChangeOf(instrument: string, level: Level): Delta
    requires LevelFault(level).None?
  {
    Delta(instrument, if level.size == 0 then Delete else Update, Some(OrderOf(level)), false, false)
  }

  lemma {:induction false} ConvertibleLevels(levels: seq<Level>)
    ensures ChangeFault(levels).None? <==> Convertible(levels)
  {
    if levels != [] {
      ConvertibleLevels(levels[..|levels| - 1]);
      assert forall j :: 0 <= j < |levels| - 1 ==> levels[..|levels| - 1][j] == levels[j];
    }
  }

  ghost predicate Convertible(levels: seq<Level>) {
    forall j :: 0 <= j < |levels| ==> LevelFault(levels[j]).None?
  }

  ghost function Changes(instrument: string, levels: seq<Level>): seq<Delta>
    requires Convertible(levels)
  {
    seq(|levels|, j requires 0 <= j < |levels| => ChangeOf(instrument, levels[j]))
  }

  /** The envelope of an image: one clear, then one add per occupied level. */
  ghost function Envelope(instrument: string, adds: seq<Level>): seq<Delta>
    requires Convertible(adds)
  {
    [Delta(instrument, ClearBook, None, true, adds == [])] +
    seq(|adds|, j requires 0 <= j < |adds| => Delta(instrument, Add, Some(OrderOf(adds[j])), true, j == |adds| - 1))
  }

  /** Set the last-of-batch flag on the last delta. */
  function Closed(instrument: string, deltas: seq<Delta>): Batch
    requires deltas != []
  {
    Batch(instrument, deltas[|deltas| - 1 := deltas[|deltas| - 1].(last := true)])
  }

  /** A level of an update reads: a size that is not negative, and a price. */
  predicate ReadsAsChange(level: Level) {
    level.size >= 0 && level.price.Some?
  }

  /** A level of an image reads: an empty one needs no price. */
  predicate ReadsAsImage(level: Level) {
    level.size >= 0 && (level.size > 0 ==> level.price.Some?)
  }

  /** `fault` is that of the first level that does not read: its size when negative, else its price. */
  ghost predicate FirstFault(levels: seq<Level>, ok: Level -> bool, fault: Fault) {
    exists j :: 0 <= j < |levels| && !ok(levels[j]) && (forall i :: 0 <= i < j ==> ok(levels[i]))
                && fault == if levels[j].size < 0 then NegativeSize else BadPrice
  }

  /** What a delta says of its level, field by field; an empty level leaves the book. */
  ghost predicate Says(d: Delta, instrument: string, action: Action, level: Level) {
    && d.instrument == instrument && d.action == action && level.price.Some? && level.size >= 0
    && d.order == Some(BookOrder(level.side, level.price.value, level.size, level.orderId))
  }

  /** The fault of an update is that of its first level that does not read. */
  lemma {:induction false} ChangeFaultIsFirst(levels: seq<Level>)
    ensures ChangeFault(levels).None? <==> forall j :: 0 <= j < |levels| ==> ReadsAsChange(levels[j])
    ensures ChangeFault(levels).Some? ==> FirstFault(levels, ReadsAsChange, ChangeFault(levels).value)
  {
    if levels != [] {
      var init, n := levels[..|levels| - 1], |levels| - 1;
      ChangeFaultIsFirst(init);
      assert forall j :: 0 <= j < n ==> init[j] == levels[j];
      if ChangeFault(init).None? && ChangeFault(levels).Some? {
        assert !ReadsAsChange(levels[n]) && forall i :: 0 <= i < n ==> ReadsAsChange(levels[i]);
      } else if ChangeFault(init).Some? {
        FaultExtends(init, levels, ReadsAsChange, ChangeFault(init).value);
      }
    }
  }

  lemma {:induction false} FaultExtends(init: seq<Level>, levels: seq<Level>, ok: Level -> bool, fault: Fault)
    requires init <= levels && FirstFault(init, ok, fault)
    ensures FirstFault(levels, ok, fault)
  {
    var j :| 0 <= j < |init| && !ok(init[j]) && (forall i :: 0 <= i < j ==> ok(init[i]))
             && fault == if init[j].size < 0 then NegativeSize else BadPrice;
    assert levels[j] == init[j] && forall i :: 0 <= i < j ==> levels[i] == init[i];
  }

  /** The same for an image, whose empty levels need no price. */
  lemma {:induction false} ImageFault(levels: seq<Level>)
    ensures ChangeFault(Occupied(levels)).None? <==> forall j :: 0 <= j < |levels| ==> ReadsAsImage(levels[j])
    ensures Convertible(Occupied(levels)) <==> forall j :: 0 <= j < |levels| ==> ReadsAsImage(levels[j])
    ensures ChangeFault(Occupied(levels)).Some? ==>
              FirstFault(levels, ReadsAsImage, ChangeFault(Occupied(levels)).value)
  {
    ConvertibleLevels(Occupied(levels));
    if levels != [] {
      var init, n := levels[..|levels| - 1], |levels| - 1;
      var kept := Occupied(init);
      ImageFault(init);
      assert forall j :: 0 <= j < n ==> init[j] == levels[j];
      if levels[n].size != 0 {
        assert (kept + [levels[n]])[..|kept|] == kept;
      }
      if ChangeFault(kept).Some? {
        FaultExtends(init, levels, ReadsAsImage, ChangeFault(kept).value);
      } else if ChangeFault(Occupied(levels)).Some? {
        assert !ReadsAsImage(levels[n]) && forall i :: 0 <= i < n ==> ReadsAsImage(levels[i]);
      }
    }
  }

  method ChangedLevels(m: Message) returns (r: Result<seq<Delta>, Fault>)
    ensures r.Ok? <==> forall j :: 0 <= j < |m.levels| ==> ReadsAsChange(m.levels[j])
    ensures r.Ok? ==> |r.value| == |m.levels| && forall j :: 0 <= j < |m.levels| ==>
              Says(r.value[j], m.instrument, if m.levels[j].size == 0 then Delete else Update, m.levels[j])
              && !r.value[j].snapshot && !r.value[j].last
    ensures r.Err? ==> FirstFault(m.levels, ReadsAsChange, r.error)
    ensures r.Ok? <==> Convertible(m.levels)
    ensures r.Ok? ==> r.value == Changes(m.instrument, m.levels)
    ensures r.Err? ==> ChangeFault(m.levels) == Some(r.error)
  {
    var out: seq<Delta> := [];
    var i := 0;
    while i < |m.levels|
      invariant 0 <= i <= |m.levels|
      invariant ChangeFault(m.levels[..i]).None?
      invariant Convertible(m.levels[..i])
      invariant out == Changes(m.instrument, m.levels[..i])
    {
      var level := m.levels[i];
      assert m.levels[..i + 1][..i] == m.levels[..i];
      if LevelFault(level).Some? {
        FaultStays(m.levels, i + 1);
        ChangeFaultIsFirst(m.levels);
        return Err(LevelFault(level).value);
      }
      out := out + [ChangeOf(m.instrument, level)];
      i := i + 1;
    }
    assert m.levels[..i] == m.levels;
    ChangeFaultIsFirst(m.levels);
    return Ok(out);
  }

  lemma {:induction false} FaultStays(levels: seq<Level>, n: nat)
    requires n <= |levels| && ChangeFault(levels[..n]).Some?
    ensures ChangeFault(levels) == ChangeFault(levels[..n])
    decreases |levels| - n
  {
    if n == |levels| {
      assert levels[..n] == levels;
    } else {
      assert levels[..n + 1][..n] == levels[..n];
      FaultStays(levels, n + 1);
    }
  }

  method ImageDeltas(m: Message) returns (r: Result<Batch, Fault>)
    ensures r.Ok? <==> forall j :: 0 <= j < |m.levels| ==> ReadsAsImage(m.levels[j])
    ensures r.Err? ==> FirstFault(m.levels, ReadsAsImage, r.error)
    ensures r.Ok? <==> Convertible(Occupied(m.levels))
    ensures r.Ok? ==> r.value == Batch(m.instrument, Envelope(m.instrument, Occupied(m.levels)))
    ensures r.Err? ==> ChangeFault(Occupied(m.levels)) == Some(r.error)
  {
    var orders := ImageOrders(m.levels);
    ImageFault(m.levels);
    if orders.Err? {
      return Err(orders.error);
    }
    var deltas := EnvelopeDeltas(m.instrument, orders.value, Occupied(m.levels));
    return Ok(Batch(m.instrument, deltas));
  }

  /** The orders of the occupied levels, or the first fault among them. */
  method ImageOrders(levels: seq<Level>) returns (r: Result<seq<BookOrder>, Fault>)
    ensures r.Ok? <==> Convertible(Occupied(levels))
    ensures r.Ok? ==> |r.value| == |Occupied(levels)|
    ensures r.Ok? ==> forall j :: 0 <= j < |r.value| ==> r.value[j] == OrderOf(Occupied(levels)[j])
    ensures r.Err? ==> ChangeFault(Occupied(levels)) == Some(r.error)
  {
    var adds: seq<BookOrder> := [];
    ghost var kept: seq<Level> := [];
    var i := 0;
    while i < |levels|
      invariant 0 <= i <= |levels|
      invariant kept == Occupied(levels[..i])
      invariant ChangeFault(kept).None?
      invariant Convertible(kept)
      invariant |adds| == |kept| && forall j :: 0 <= j < |adds| ==> adds[j] == OrderOf(kept[j])
    {
      var level := levels[i];
      assert levels[..i + 1][..i] == levels[..i];
      if level.size != 0 {
        assert (kept + [level])[..|kept|] == kept;
        kept := kept + [level];
        if LevelFault(level).Some? {
          FaultOfImage(levels, i + 1);
          return Err(LevelFault(level).value);
        }
        adds := adds + [OrderOf(level)];
      }
      i := i + 1;
    }
    assert levels[..i] == levels;
    return Ok(adds);
  }

  method EnvelopeDeltas(instrument: string, adds: seq<BookOrder>, ghost kept: seq<Level>) returns (deltas: seq<Delta>)
    requires Convertible(kept)
    requires |adds| == |kept| && forall j :: 0 <= j < |adds| ==> adds[j] == OrderOf(kept[j])
    ensures deltas == Envelope(instrument, kept)
  {
    deltas := [Delta(instrument, ClearBook, None, true, adds == [])];
    ghost var whole := Envelope(instrument, kept);
    var i := 0;
    while i < |adds|
      invariant 0 <= i <= |adds|
      invariant deltas == whole[..i + 1]
    {
      deltas := deltas + [Delta(instrument, Add, Some(adds[i]), true, i == |adds| - 1)];
      i := i + 1;
    }
  }

  lemma {:induction false} FaultOfImage(levels: seq<Level>, n: nat)
    requires n <= |levels| && ChangeFault(Occupied(levels[..n])).Some?
    ensures ChangeFault(Occupied(levels)) == ChangeFault(Occupied(levels[..n]))
    ensures !Convertible(Occupied(levels))
  {
    OccupiedGrows(levels, n);
    var kept := Occupied(levels[..n]);
    assert Occupied(levels)[..|kept|] == kept;
    FaultStays(Occupied(levels), |kept|);
    ConvertibleLevels(Occupied(levels));
  }

  lemma {:induction false} OccupiedGrows(levels: seq<Level>, n: nat)
    requires n <= |levels|
    ensures Occupied(levels[..n]) <= Occupied(levels)
    decreases |levels| - n
  {
    if n == |levels| {
      assert levels[..n] == levels;
    } else {
      assert levels[..n + 1][..n] == levels[..n];
      OccupiedGrows(levels, n + 1);
    }
  }

  // ---------------------------------------------------------------- one message

  type Pending = map<string, seq<Delta>>

  function PartOf(pending: Pending, instrument: string): seq<Delta> {
    if instrument in pending then pending[instrument] else []
  }

  ghost function Emit(instrument: string, deltas: seq<Delta>): Outcome {
    Ok(if deltas == [] then None else Some(Closed(instrument, deltas)))
  }

  ghost function Fed(pending: Pending, m: Message): (Pending, Outcome) {
    match KindOf(m)
    case Snapshot =>
      (pending - {m.instrument},
       var adds := Occupied(m.levels);
       ConvertibleLevels(adds);
       if ChangeFault(adds).Some? then Err(ChangeFault(adds).value)
       else Ok(Some(Batch(m.instrument, Envelope(m.instrument, adds)))))
    case Clear => (pending - {m.instrument}, Ok(Some(Batch(m.instrument, Envelope(m.instrument, [])))))
    case NoBook => (pending - {m.instrument}, Ok(Some(Batch(m.instrument, Envelope(m.instrument, [])))))
    case kind =>
      ConvertibleLevels(m.levels);
      if ChangeFault(m.levels).Some? then (pending, Err(ChangeFault(m.levels).value))
      else
        var changed := Changes(m.instrument, m.levels);
        match kind
        case Begin => (pending[m.instrument := changed], Ok(None))
        case Middle => (pending[m.instrument := PartOf(pending, m.instrument) + changed], Ok(None))
        case End => (pending - {m.instrument}, Emit(m.instrument, PartOf(pending, m.instrument) + changed))
        case _ => (pending, Emit(m.instrument, changed))
  }

  class BookAssembler {
    var pending: Pending

    constructor ()
      ensures pending == map[]
    {
      pending := map[];
    }

    /** The stream was reset: the rest of a half-received update will not arrive. */
    method Reset()
      modifies this
      ensures pending == map[]
    {
      pending := map[];
    }

    method Feed(m: Message) returns (r: Outcome)
      modifies this
      ensures (pending, r) == Fed(old(pending), m)
    {
      var key := m.instrument;
      var kind := KindOf(m);
      if kind == Snapshot {
        pending := pending - {key};
        var image := ImageDeltas(m);
        ConvertibleLevels(Occupied(m.levels));
        return if image.Ok? then Ok(Some(image.value)) else Err(image.error);
      }
      if kind == Clear || kind == NoBook {
        pending := pending - {key};
        assert Envelope(key, []) == [Delta(key, ClearBook, None, true, true)];
        return Ok(Some(Batch(key, [Delta(key, ClearBook, None, true, true)])));
      }
      var converted := ChangedLevels(m);
      if converted.Err? {
        return Err(converted.error);
      }
      var changed := converted.value;
      ConvertibleLevels(m.levels);
      if kind == Begin {
        pending := pending[key := changed];
        return Ok(None);
      }
      if kind == Middle {
        pending := pending[key := PartOf(pending, key) + changed];
        return Ok(None);
      }
      if kind == End {
        changed := PartOf(pending, key) + changed;
        pending := pending - {key};
      }
      if changed == [] {
        return Ok(None);
      }
      return Ok(Some(Closed(key, changed)));
    }
  }

  // ---------------------------------------------------------------- whole runs

  datatype Input = Feed(m: Message) | Reset

  datatype State = State(pending: Pending, emitted: seq<Batch>)

  ghost function Step(s: State, input: Input): State {
    match input
    case Reset => s.(pending := map[])
    case Feed(m) =>
      var (pending, out) := Fed(s.pending, m);
      State(pending, if out.Ok? && out.value.Some? then s.emitted + [out.value.value] else s.emitted)
  }

  ghost function Run(inputs: seq<Input>): State {
    if inputs == [] then State(map[], []) else Step(Run(inputs[..|inputs| - 1]), inputs[|inputs| - 1])
  }

  // ---------------------------------------------------------------- batches

  /** Non-empty, one instrument, the closing flag on exactly the last delta, clears only in front of an image. */
  ghost predicate WellFormed(batch: Batch) {
    && batch.deltas != []
    && (forall j :: 0 <= j < |batch.deltas| ==> batch.deltas[j].instrument == batch.instrument)
    && (forall j :: 0 <= j < |batch.deltas| ==> (batch.deltas[j].last <==> j == |batch.deltas| - 1))
    && (forall j :: 0 <= j < |batch.deltas| ==> (batch.deltas[j].snapshot <==> batch.deltas[0].action == ClearBook))
    && (forall j :: 0 < j < |batch.deltas| ==> batch.deltas[j].action != ClearBook)
  }

  /** Collected deltas are changes of their instrument that carry no flag yet. */
  ghost predicate Unflagged(instrument: string, deltas: seq<Delta>) {
    forall j :: 0 <= j < |deltas| ==>
                  && deltas[j].instrument == instrument
                  && !deltas[j].last
                  && !deltas[j].snapshot
                  && deltas[j].action in {Update, Delete}
  }

  lemma {:induction false} BatchesWellFormed(inputs: seq<Input>)
    ensures forall b :: 0 <= b < |Run(inputs).emitted| ==> WellFormed(Run(inputs).emitted[b])
    ensures forall i :: i in Run(inputs).pending ==> Unflagged(i, Run(inputs).pending[i])
  {
    if inputs != [] {
      BatchesWellFormed(inputs[..|inputs| - 1]);
      var s := Run(inputs[..|inputs| - 1]);
      var last := inputs[|inputs| - 1];
      if last.Feed? {
        FedWellFormed(s.pending, last.m);
      }
    }
  }

  lemma {:induction false} ClosedWellFormed(instrument: string, deltas: seq<Delta>)
    requires Unflagged(instrument, deltas) && deltas != []
    ensures WellFormed(Closed(instrument, deltas))
  {
  }

  lemma {:induction false} EnvelopeWellFormed(instrument: string, adds: seq<Level>)
    requires Convertible(adds)
    ensures WellFormed(Batch(instrument, Envelope(instrument, adds)))
  {
  }

  ghost predicate FedGood(fed: (Pending, Outcome)) {
    && (forall i :: i in fed.0 ==> Unflagged(i, fed.0[i]))
    && (fed.1.Ok? && fed.1.value.Some? ==> WellFormed(fed.1.value.value))
  }

  lemma {:induction false} FedWellFormed(pending: Pending, m: Message)
    requires forall i :: i in pending ==> Unflagged(i, pending[i])
    ensures FedGood(Fed(pending, m))
  {
    if KindOf(m) in {Begin, Middle, End, Solo} {
      ChangeFedWellFormed(pending, m);
    } else {
      var adds := if KindOf(m) == Snapshot then Occupied(m.levels) else [];
      ConvertibleLevels(adds);
      if Convertible(adds) {
        EnvelopeWellFormed(m.instrument, adds);
      }
    }
  }

  lemma {:induction false} ChangeFedWellFormed(pending: Pending, m: Message)
    requires forall i :: i in pending ==> Unflagged(i, pending[i])
    requires KindOf(m) in {Begin, Middle, End, Solo}
    ensures FedGood(Fed(pending, m))
  {
    ConvertibleLevels(m.levels);
    if Convertible(m.levels) {
      ChangeWellFormed(pending, m, Changes(m.instrument, m.levels));
    }
  }

  lemma {:induction false} ChangeWellFormed(pending: Pending, m: Message, changed: seq<Delta>)
    requires Convertible(m.levels) && changed == Changes(m.instrument, m.levels)
    requires m.instrument in pending ==> Unflagged(m.instrument, pending[m.instrument])
    ensures Unflagged(m.instrument, changed)
    ensures Unflagged(m.instrument, PartOf(pending, m.instrument) + changed)
    ensures changed != [] ==> WellFormed(Closed(m.instrument, changed))
    ensures PartOf(pending, m.instrument) + changed != []
        ==> WellFormed(Closed(m.instrument, PartOf(pending, m.instrument) + changed))
  {
    var all := PartOf(pending, m.instrument) + changed;
    assert Unflagged(m.instrument, all);
    if changed != [] {
      ClosedWellFormed(m.instrument, changed);
    }
    if all != [] {
      ClosedWellFormed(m.instrument, all);
    }
  }
}
