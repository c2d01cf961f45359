/**
 Replaying the assembled delta batches gives every instrument the book that its own
 messages describe, however the messages of other instruments are interleaved.
 */
module BookReplay {
  import opened Basics
  import opened BookAssembly

  // ---------------------------------------------------------------- replay

  datatype Key = Key(side: Side, price: int)

  type Book = map<Key, int>

  /** A price-keyed book: an update of a price it lacks adds it. */
  function Applied(book: Book, delta: Delta): Book {
    match delta.action
    case ClearBook => map[]
    case _ =>
      if delta.order.None? then book
      else
        var key := Key(delta.order.value.side, delta.order.value.price);
        if delta.action == Delete then book - {key} else book[key := delta.order.value.size]
  }

  function Replay(book: Book, deltas: seq<Delta>): Book {
    if deltas == [] then book else Applied(Replay(book, deltas[..|deltas| - 1]), deltas[|deltas| - 1])
  }

  /** The book of one subscriber of `instrument` after all batches. */
  function BookOf(instrument: string, emitted: seq<Batch>): Book {
    if emitted == [] then map[]
    else
      var book := BookOf(instrument, emitted[..|emitted| - 1]);
      var batch := emitted[|emitted| - 1];
      if batch.instrument == instrument then Replay(book, batch.deltas) else book
  }

  // ---------------------------------------------------------------- reference

  /** The size the last mention of `key` gives it. */
  function LastSize(levels: seq<Level>, key: Key): Option<int> {
    if levels == [] then None
    else
      var level := levels[|levels| - 1];
      if level.side == key.side && level.price == Some(key.price) then Some(level.size)
      else LastSize(levels[..|levels| - 1], key)
  }

  /** What a book says of `key`; an absent price has size 0. */
  function SizeAt(book: Book, key: Key): int {
    if key in book then book[key] else 0
  }

  /** `next` is `book` with the levels in it: last mention wins, size 0 leaves the book. */
  ghost predicate Overlays(book: Book, levels: seq<Level>, next: Book) {
    && (forall k :: SizeAt(next, k) == if LastSize(levels, k).Some? then LastSize(levels, k).value else SizeAt(book, k))
    && (forall k :: k in next ==> next[k] != 0)
  }

  /** A book and the levels of an update that is still being received. */
  datatype Reference = Reference(book: Book, part: seq<Level>)

  /** The size the last occupied mention of `key` gives it; an image says nothing of empty levels. */
  function LastShown(levels: seq<Level>, key: Key): int {
    if levels == [] then 0
    else
      var level := levels[|levels| - 1];
      if level.size > 0 && level.side == key.side && level.price == Some(key.price) then level.size
      else LastShown(levels[..|levels| - 1], key)
  }

  ghost predicate Shows(levels: seq<Level>, book: Book) {
    && (forall k :: SizeAt(book, k) == LastShown(levels, k))
    && (forall k :: k in book ==> book[k] != 0)
  }

  ghost predicate ChangeReads(levels: seq<Level>) {
    forall j :: 0 <= j < |levels| ==> ReadsAsChange(levels[j])
  }

  ghost predicate ImageReads(levels: seq<Level>) {
    forall j :: 0 <= j < |levels| ==> ReadsAsImage(levels[j])
  }

  /** What one of the instrument's own messages means. */
  ghost predicate Means(r: Reference, input: Input, next: Reference) {
    match input
    case Reset => next == Reference(r.book, [])
    case Feed(m) =>
      match m.kind
      case None => ImageMeans(r, m.levels, next)
      case Some(Snapshot) => ImageMeans(r, m.levels, next)
      case Some(Clear) => next == Reference(map[], [])
      case Some(NoBook) => next == Reference(map[], [])
      case Some(kind) => if ChangeReads(m.levels) then ChangeMeans(r, kind, m.levels, next) else next == r
  }

  /** An image replaces the book, and ends a half-received update whether it reads or not. */
  ghost predicate ImageMeans(r: Reference, levels: seq<Level>, next: Reference) {
    next.part == [] && if ImageReads(levels) then Shows(levels, next.book) else next.book == r.book
  }

  ghost predicate ChangeMeans(r: Reference, kind: Kind, levels: seq<Level>, next: Reference) {
    match kind
    case Begin => next == Reference(r.book, levels)
    case Middle => next == Reference(r.book, r.part + levels)
    case End => next.part == [] && Overlays(r.book, r.part + levels, next.book)
    case _ => next.part == r.part && Overlays(r.book, levels, next.book)
  }

  /** The messages of one instrument, and the stream resets. */
  function Own(instrument: string, inputs: seq<Input>): seq<Input> {
    if inputs == [] then []
    else
      var before := Own(instrument, inputs[..|inputs| - 1]);
      var last := inputs[|inputs| - 1];
      if last.Reset? || last.m.instrument == instrument then before + [last] else before
  }

  /** `trail` interprets `own` message by message from an empty book. */
  ghost predicate Interprets(own: seq<Input>, trail: seq<Reference>) {
    && |trail| == |own| + 1
    && trail[0] == Reference(map[], [])
    && forall j :: 0 <= j < |own| ==> Means(trail[j], own[j], trail[j + 1])
  }

  // ---------------------------------------------------------------- proofs

  /** The reference is deterministic: a trail is decided by the messages. */
  lemma {:induction false} OverlayUnique(book: Book, levels: seq<Level>, a: Book, b: Book)
    requires Overlays(book, levels, a) && Overlays(book, levels, b)
    ensures a == b
  {
    forall k ensures k in a <==> k in b
      ensures k in a && k in b ==> a[k] == b[k]
    {
      assert SizeAt(a, k) == SizeAt(b, k);
    }
  }

  lemma {:induction false} MeaningUnique(r: Reference, input: Input, a: Reference, b: Reference)
    requires Means(r, input, a) && Means(r, input, b)
    ensures a == b
  {
    if input.Feed? {
      var m := input.m;
      match m.kind {
        case None => if ImageReads(m.levels) { ShowsUnique(m.levels, a.book, b.book); }
        case Some(Snapshot) => if ImageReads(m.levels) { ShowsUnique(m.levels, a.book, b.book); }
        case Some(End) => if ChangeReads(m.levels) { OverlayUnique(r.book, r.part + m.levels, a.book, b.book); }
        case Some(Solo) => if ChangeReads(m.levels) { OverlayUnique(r.book, m.levels, a.book, b.book); }
        case _ =>
      }
    }
  }

  lemma {:induction false} ShowsUnique(levels: seq<Level>, a: Book, b: Book)
    requires Shows(levels, a) && Shows(levels, b)
    ensures a == b
  {
    forall k ensures k in a <==> k in b
      ensures k in a && k in b ==> a[k] == b[k]
    {
      assert SizeAt(a, k) == SizeAt(b, k);
    }
  }

  lemma {:induction false} ChangeConverts(levels: seq<Level>)
    ensures Convertible(levels) <==> ChangeReads(levels)
  {
  }

  lemma {:induction false} OccupiedShown(levels: seq<Level>, key: Key)
    requires ImageReads(levels)
    ensures LastSize(Occupied(levels), key)
         == (if LastShown(levels, key) == 0 then None else Some(LastShown(levels, key)))
  {
    if levels != [] {
      var init, level := levels[..|levels| - 1], levels[|levels| - 1];
      assert forall j :: 0 <= j < |init| ==> init[j] == levels[j];
      OccupiedShown(init, key);
      if level.size != 0 {
        assert (Occupied(init) + [level])[..|Occupied(init)|] == Occupied(init);
      }
    }
  }

  lemma {:induction false} OverlayShows(levels: seq<Level>, book: Book)
    requires ImageReads(levels) && Overlays(map[], Occupied(levels), book)
    ensures Shows(levels, book)
  {
    forall k
      ensures SizeAt(book, k) == LastShown(levels, k)
    {
      OccupiedShown(levels, k);
    }
  }

  lemma {:induction false} TrailUnique(own: seq<Input>, a: seq<Reference>, b: seq<Reference>, n: nat)
    requires Interprets(own, a) && Interprets(own, b) && n <= |own|
    ensures a[n] == b[n]
  {
    if n > 0 {
      TrailUnique(own, a, b, n - 1);
      MeaningUnique(a[n - 1], own[n - 1], a[n], b[n]);
    }
  }

  ghost predicate NoZero(book: Book) {
    forall k :: k in book ==> book[k] != 0
  }

  lemma {:induction false} ChangesOverlay(instrument: string, levels: seq<Level>, book: Book)
    requires Convertible(levels) && NoZero(book)
    ensures Overlays(book, levels, Replay(book, Changes(instrument, levels)))
  {
    if levels != [] {
      var init := levels[..|levels| - 1];
      ChangesOverlay(instrument, init, book);
      assert Changes(instrument, levels)[..|levels| - 1] == Changes(instrument, init);
    }
  }

  lemma {:induction false} OccupiedNonzero(levels: seq<Level>)
    ensures forall j :: 0 <= j < |Occupied(levels)| ==> Occupied(levels)[j].size != 0
  {
    if levels != [] {
      OccupiedNonzero(levels[..|levels| - 1]);
    }
  }

  /** The adds of an image after its clear. */
  ghost function ImagePrefix(instrument: string, adds: seq<Level>, n: nat): seq<Delta>
    requires Convertible(adds) && n <= |adds|
  {
    Envelope(instrument, adds)[..n + 1]
  }

  lemma {:induction false} EnvelopeOverlays(instrument: string, adds: seq<Level>, book: Book, n: nat)
    requires Convertible(adds) && n <= |adds| && forall j :: 0 <= j < |adds| ==> adds[j].size != 0
    ensures Overlays(map[], adds[..n], Replay(book, ImagePrefix(instrument, adds, n)))
  {
    var p := ImagePrefix(instrument, adds, n);
    if n == 0 {
      assert p[..0] == [];
    } else {
      EnvelopeOverlays(instrument, adds, book, n - 1);
      assert p[..n] == ImagePrefix(instrument, adds, n - 1);
      assert adds[..n][..n - 1] == adds[..n - 1];
    }
  }

  lemma {:induction false} ClosedReplays(instrument: string, deltas: seq<Delta>, book: Book)
    requires deltas != []
    ensures Replay(book, Closed(instrument, deltas).deltas) == Replay(book, deltas)
  {
    var n := |deltas| - 1;
    assert Closed(instrument, deltas).deltas[..n] == deltas[..n];
  }

  /** Collected deltas are the changes of the collected levels. */
  ghost predicate Matches(instrument: string, s: State, r: Reference) {
    && NoZero(r.book)
    && BookOf(instrument, s.emitted) == r.book
    && Convertible(r.part)
    && PartOf(s.pending, instrument) == Changes(instrument, r.part)
  }

  lemma {:induction false} EmitMatches(instrument: string, s: State, r: Reference, levels: seq<Level>)
      returns (book: Book)
    requires Matches(instrument, s, r) && Convertible(levels)
    ensures Overlays(r.book, levels, book) && NoZero(book)
    ensures levels == [] ==> book == BookOf(instrument, s.emitted)
    ensures levels != [] ==> book == BookOf(instrument, s.emitted + [Closed(instrument, Changes(instrument, levels))])
  {
    ChangesOverlay(instrument, levels, r.book);
    book := Replay(r.book, Changes(instrument, levels));
    if levels != [] {
      ClosedReplays(instrument, Changes(instrument, levels), r.book);
      var batch := Closed(instrument, Changes(instrument, levels));
      assert (s.emitted + [batch])[..|s.emitted|] == s.emitted;
    }
  }

  lemma {:induction false} ImageMatches(instrument: string, s: State, r: Reference, adds: seq<Level>)
      returns (book: Book)
    requires Matches(instrument, s, r) && Convertible(adds)
    requires forall j :: 0 <= j < |adds| ==> adds[j].size != 0
    ensures Overlays(map[], adds, book) && NoZero(book)
    ensures book == BookOf(instrument, s.emitted + [Batch(instrument, Envelope(instrument, adds))])
  {
    EnvelopeOverlays(instrument, adds, r.book, |adds|);
    assert adds[..|adds|] == adds;
    assert ImagePrefix(instrument, adds, |adds|) == Envelope(instrument, adds);
    book := Replay(r.book, Envelope(instrument, adds));
    assert (s.emitted + [Batch(instrument, Envelope(instrument, adds))])[..|s.emitted|] == s.emitted;
  }

  /** A message of the instrument moves the replayed book as the reference says. */
  lemma {:induction false} OwnStep(instrument: string, s: State, r: Reference, m: Message) returns (next: Reference)
    requires Matches(instrument, s, r) && m.instrument == instrument
    ensures Means(r, Feed(m), next)
    ensures Matches(instrument, Step(s, Feed(m)), next)
  {
    if KindOf(m) == Snapshot {
      next := ImageStep(instrument, s, r, m);
    } else if KindOf(m) == Clear || KindOf(m) == NoBook {
      next := ClearStep(instrument, s, r, m);
    } else {
      next := ChangeStep(instrument, s, r, m);
    }
  }

  lemma {:induction false} ClearStep(instrument: string, s: State, r: Reference, m: Message) returns (next: Reference)
    requires Matches(instrument, s, r) && m.instrument == instrument
    requires KindOf(m) == Clear || KindOf(m) == NoBook
    ensures Means(r, Feed(m), next)
    ensures Matches(instrument, Step(s, Feed(m)), next)
  {
    var book := ImageMatches(instrument, s, r, []);
    next := Reference(map[], []);
    OverlayUnique(map[], [], book, map[]);
  }

  lemma {:induction false} ImageStep(instrument: string, s: State, r: Reference, m: Message) returns (next: Reference)
    requires Matches(instrument, s, r) && m.instrument == instrument
    requires KindOf(m) == Snapshot
    ensures Means(r, Feed(m), next)
    ensures Matches(instrument, Step(s, Feed(m)), next)
  {
    ImageFault(m.levels);
    if Convertible(Occupied(m.levels)) {
      var book := ImageBook(instrument, s, r, m.levels);
      next := Reference(book, []);
    } else {
      next := Reference(r.book, []);
    }
  }

  lemma {:induction false} ImageBook(instrument: string, s: State, r: Reference, levels: seq<Level>)
      returns (book: Book)
    requires Matches(instrument, s, r) && Convertible(Occupied(levels))
    ensures Shows(levels, book) && NoZero(book)
    ensures book == BookOf(instrument, s.emitted + [Batch(instrument, Envelope(instrument, Occupied(levels)))])
  {
    OccupiedNonzero(levels);
    book := ImageMatches(instrument, s, r, Occupied(levels));
    ImageFault(levels);
    OverlayShows(levels, book);
  }

  lemma {:induction false} ChangeStep(instrument: string, s: State, r: Reference, m: Message) returns (next: Reference)
    requires Matches(instrument, s, r) && m.instrument == instrument
    requires KindOf(m) in {Begin, Middle, End, Solo}
    ensures Means(r, Feed(m), next)
    ensures Matches(instrument, Step(s, Feed(m)), next)
  {
    next := r;
    ConvertibleLevels(m.levels);
    ChangeConverts(m.levels);
    if Convertible(m.levels) {
      assert Changes(instrument, r.part + m.levels) == Changes(instrument, r.part) + Changes(instrument, m.levels);
      match KindOf(m) {
        case Begin => next := Reference(r.book, m.levels);
        case Middle => next := Reference(r.book, r.part + m.levels);
        case End =>
          var book := EmitMatches(instrument, s, r, r.part + m.levels);
          next := Reference(book, []);
        case Solo =>
          var book := EmitMatches(instrument, s, r, m.levels);
          next := Reference(book, r.part);
      }
    }
  }

  /** A message of another instrument changes neither the book nor the collected part. */
  lemma {:induction false} ForeignStep(instrument: string, s: State, r: Reference, m: Message)
    requires Matches(instrument, s, r) && m.instrument != instrument
    ensures Matches(instrument, Step(s, Feed(m)), r)
  {
    var (pending, out) := Fed(s.pending, m);
    assert PartOf(pending, instrument) == PartOf(s.pending, instrument);
    if out.Ok? && out.value.Some? {
      assert (s.emitted + [out.value.value])[..|s.emitted|] == s.emitted;
    }
  }

  /**
   For every interleaving of messages over instruments, the replayed book of an instrument
   is the one the reference builds from that instrument's own messages alone.
   */
  lemma {:induction false} ReplayIsReference(instrument: string, inputs: seq<Input>) returns (trail: seq<Reference>)
    ensures Interprets(Own(instrument, inputs), trail)
    ensures Matches(instrument, Run(inputs), trail[|trail| - 1])
  {
    if inputs == [] {
      trail := [Reference(map[], [])];
    } else {
      var before := ReplayIsReference(instrument, inputs[..|inputs| - 1]);
      var s := Run(inputs[..|inputs| - 1]);
      var r := before[|before| - 1];
      var last := inputs[|inputs| - 1];
      var own := Own(instrument, inputs[..|inputs| - 1]);
      if last.Feed? && last.m.instrument != instrument {
        ForeignStep(instrument, s, r, last.m);
        trail := before;
      } else {
        var next := Reference(r.book, []);
        if last.Feed? {
          next := OwnStep(instrument, s, r, last.m);
        }
        trail := before + [next];
        assert Own(instrument, inputs) == own + [last];
        assert forall j :: 0 <= j < |own| ==> Means(trail[j], (own + [last])[j], trail[j + 1]);
      }
    }
  }

  lemma {:induction false} BookTheorem(instrument: string, inputs: seq<Input>, trail: seq<Reference>)
    requires Interprets(Own(instrument, inputs), trail)
    ensures BookOf(instrument, Run(inputs).emitted) == trail[|trail| - 1].book
  {
    var own := Own(instrument, inputs);
    var found := ReplayIsReference(instrument, inputs);
    TrailUnique(own, trail, found, |own|);
  }

  /** A solo update that empties a price leaves a book without it, whatever came before. */
  lemma {:induction false} EmptyLevelLeaves(instrument: string, inputs: seq<Input>, side: Side, price: int, id: int)
    ensures var m := Message(instrument, Some(Solo), [Level(side, Some(price), 0, id)]);
            Key(side, price) !in BookOf(instrument, Run(inputs + [Feed(m)]).emitted)
  {
    var m := Message(instrument, Some(Solo), [Level(side, Some(price), 0, id)]);
    var all := inputs + [Feed(m)];
    assert all[..|all| - 1] == inputs;
    var before := ReplayIsReference(instrument, inputs);
    var r := before[|before| - 1];
    var next := OwnStep(instrument, Run(inputs), r, m);
    assert ChangeReads(m.levels);
    assert LastSize(m.levels, Key(side, price)) == Some(0);
    assert SizeAt(next.book, Key(side, price)) == 0;
  }
}
