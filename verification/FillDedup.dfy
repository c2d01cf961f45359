/**
 Fill identity and the exactly-once machinery: the tracked, untracked and
 reconciliation paths all consult and mark one bounded dedup store.
 */
module FillDedup {
  import opened Basics
  import opened Lru

  const MAX_SEEN_FILL_KEYS := 10_000

  /** The wire fields a fill's identity is read from. Sizes and prices are the printed text. */
  datatype FillFields = FillFields(
    accountId: string, instrumentId: string, fillId: Option<string>, basketId: string,
    exchangeOrderId: string, fillSize: string, fillPrice: string, tsEvent: Option<int>)

  function Digits(n: nat): string {
    if n < 10 then ["0123456789"[n]] else Digits(n / 10) + ["0123456789"[n % 10]]
  }

  function IntText(n: int): string {
    if n < 0 then "-" + Digits(-n) else Digits(n)
  }

  /** The venue's fill id when it sent one, else a composite of the fill's own fields. */
  function TradeId(f: FillFields, ts: int): string {
    if f.fillId.Some? && f.fillId.value != "" then f.fillId.value
    else f.basketId + ":" + f.exchangeOrderId + ":" + IntText(ts) + ":" + f.fillSize + ":" + f.fillPrice
  }

  function DedupKey(f: FillFields, ts: int): string {
    f.accountId + "|" + f.instrumentId + "|" + TradeId(f, ts)
  }

  /** The time stamp in the identity of a fill seen live: `int(raw) if raw else 0`. */
  function IdentityTs(f: FillFields): int {
    match f.tsEvent
    case None => 0
    case Some(raw) => if raw != 0 then raw else 0
  }

  /** The time stamp of a drain row: `int(raw or 0)`. */
  function RowTs(f: FillFields): int {
    if f.tsEvent.Some? then f.tsEvent.value else 0
  }

  /** The text before the first `sep`, and the rest after it. */
  lemma {:induction false} SplitUnique(a: string, x: string, b: string, y: string, sep: char)
    requires sep !in a && sep !in b && a + [sep] + x == b + [sep] + y
    ensures a == b && x == y
    decreases |a|
  {
    var s, t := a + [sep] + x, b + [sep] + y;
    if a == [] || b == [] {
      assert s[|a|] == sep && t[|b|] == sep;
      assert a == [] ==> s[0] == sep;
      assert b == [] ==> t[0] == sep;
      assert s[|a| + 1..] == x && t[|b| + 1..] == y;
    } else {
      assert s[0] == a[0] && t[0] == b[0];
      assert s[1..] == a[1..] + [sep] + x && t[1..] == b[1..] + [sep] + y;
      SplitUnique(a[1..], x, b[1..], y, sep);
    }
  }

  lemma {:induction false} DigitsShape(n: nat)
    ensures |Digits(n)| >= 1 && (n >= 10 ==> |Digits(n)| >= 2)
    ensures forall i :: 0 <= i < |Digits(n)| ==> '0' <= Digits(n)[i] <= '9'
  {
    if n >= 10 {
      DigitsShape(n / 10);
    }
  }

  lemma {:induction false} DigitsInjective(m: nat, n: nat)
    requires Digits(m) == Digits(n)
    ensures m == n
  {
    DigitsShape(m);
    DigitsShape(n);
    var s, last := Digits(m), |Digits(m)| - 1;
    assert s[last] == "0123456789"[m % 10] == "0123456789"[n % 10];
    assert m % 10 == n % 10;
    if m >= 10 {
      assert s[..last] == Digits(m / 10) && s[..last] == Digits(n / 10);
      DigitsInjective(m / 10, n / 10);
    }
  }

  lemma {:induction false} IntTextShape(n: int)
    ensures |IntText(n)| >= 1 && (IntText(n)[0] == '-' <==> n < 0)
    ensures n < 0 ==> IntText(n)[1..] == Digits(-n)
    ensures ':' !in IntText(n)
  {
    DigitsShape(if n < 0 then -n else n);
  }

  /** Different time stamps print differently. */
  lemma {:induction false} IntTextInjective(m: int, n: int)
    requires IntText(m) == IntText(n)
    ensures m == n
  {
    IntTextShape(m);
    IntTextShape(n);
    if m < 0 {
      DigitsInjective(-m, -n);
    } else {
      DigitsInjective(m, n);
    }
  }

  predicate Untagged(f: FillFields) {
    f.fillId.None? || f.fillId.value == ""
  }

  predicate ColonFree(f: FillFields) {
    ':' !in f.basketId && ':' !in f.exchangeOrderId && ':' !in f.fillSize
  }

  /** Fills without a venue id are told apart by basket, exchange order, time, size and price. */
  lemma {:induction false} CompositeSeparates(f: FillFields, ts: int, g: FillFields, us: int)
    requires Untagged(f) && Untagged(g) && ColonFree(f) && ColonFree(g)
    ensures TradeId(f, ts) == TradeId(g, us)
       <==> f.basketId == g.basketId && f.exchangeOrderId == g.exchangeOrderId && ts == us
            && f.fillSize == g.fillSize && f.fillPrice == g.fillPrice
  {
    if TradeId(f, ts) == TradeId(g, us) {
      CompositeShape(f, ts);
      CompositeShape(g, us);
      SplitUnique(f.basketId, OrderPart(f, ts), g.basketId, OrderPart(g, us), ':');
      SplitUnique(f.exchangeOrderId, TimedPart(f, ts), g.exchangeOrderId, TimedPart(g, us), ':');
      TimedSeparates(f, ts, g, us);
    }
  }

  ghost function OrderPart(f: FillFields, ts: int): string {
    f.exchangeOrderId + ":" + TimedPart(f, ts)
  }

  lemma {:induction false} CompositeShape(f: FillFields, ts: int)
    requires Untagged(f)
    ensures TradeId(f, ts) == f.basketId + ":" + OrderPart(f, ts)
  {
    var head, tail := f.basketId + ":" + f.exchangeOrderId + ":", f.fillSize + ":" + f.fillPrice;
    assert TradeId(f, ts) == head + TimedPart(f, ts);
    assert head == f.basketId + ":" + (f.exchangeOrderId + ":");
    ConcatAssoc(f.basketId + ":", f.exchangeOrderId + ":", TimedPart(f, ts));
  }

  ghost function TimedPart(f: FillFields, ts: int): string {
    IntText(ts) + ":" + (f.fillSize + ":" + f.fillPrice)
  }

  lemma {:induction false} TimedSeparates(f: FillFields, ts: int, g: FillFields, us: int)
    requires ColonFree(f) && ColonFree(g) && TimedPart(f, ts) == TimedPart(g, us)
    ensures ts == us && f.fillSize == g.fillSize && f.fillPrice == g.fillPrice
  {
    IntTextShape(ts);
    IntTextShape(us);
    SplitUnique(IntText(ts), f.fillSize + ":" + f.fillPrice, IntText(us), g.fillSize + ":" + g.fillPrice, ':');
    IntTextInjective(ts, us);
    SplitUnique(f.fillSize, f.fillPrice, g.fillSize, g.fillPrice, ':');
  }

  function Colons(s: string): nat {
    if s == "" then 0 else (if s[0] == ':' then 1 else 0) + Colons(s[1..])
  }

  lemma {:induction false} ColonsConcat(a: string, b: string)
    ensures Colons(a + b) == Colons(a) + Colons(b)
  {
    if a == "" {
      assert a + b == b;
    } else {
      ColonsConcat(a[1..], b);
      assert (a + b)[1..] == a[1..] + b;
    }
  }

  lemma {:induction false} NoColons(s: string)
    ensures Colons(s) == 0 <==> ':' !in s
  {
    if s != "" {
      NoColons(s[1..]);
      assert s == [s[0]] + s[1..];
    }
  }

  lemma {:induction false} ColonsJoined(a: string, b: string)
    ensures Colons(a + ":" + b) == Colons(a) + 1 + Colons(b)
  {
    ColonsConcat(a + ":", b);
    ColonsConcat(a, ":");
    assert ":"[1..] == "";
  }

  /** A composite has four colons and those of its four texts. */
  lemma {:induction false} ColonsOfComposite(f: FillFields, ts: int)
    requires Untagged(f)
    ensures Colons(TradeId(f, ts))
         == 4 + Colons(f.basketId) + Colons(f.exchangeOrderId) + Colons(f.fillSize) + Colons(f.fillPrice)
  {
    CompositeShape(f, ts);
    ColonsJoined(f.basketId, OrderPart(f, ts));
    ColonsJoined(f.exchangeOrderId, TimedPart(f, ts));
    ColonsJoined(IntText(ts), f.fillSize + ":" + f.fillPrice);
    ColonsJoined(f.fillSize, f.fillPrice);
    IntTextShape(ts);
    NoColons(IntText(ts));
  }

  /** Two texts joined by a colon, with another colon in either, are joined from two other texts too. */
  lemma {:induction false} JoinsAnew(a: string, b: string) returns (c: string, d: string)
    requires ':' in a || ':' in b
    ensures c + ":" + d == a + ":" + b && c != a
  {
    if k :| 0 <= k < |a| && a[k] == ':' {
      c, d := a[..k], a[k + 1..] + ":" + b;
      assert a == a[..k] + ":" + a[k + 1..];
    } else {
      var k :| 0 <= k < |b| && b[k] == ':';
      c, d := a + ":" + b[..k], b[k + 1..];
      assert b == b[..k] + ":" + b[k + 1..];
    }
  }

  /** Whether `g` is another fill than `f` by the five fields of the composite. */
  predicate OtherFill(f: FillFields, ts: int, g: FillFields, us: int) {
    !(f.basketId == g.basketId && f.exchangeOrderId == g.exchangeOrderId && ts == us
      && f.fillSize == g.fillSize && f.fillPrice == g.fillPrice)
  }

  predicate NoColonInside(f: FillFields) {
    ColonFree(f) && ':' !in f.fillPrice
  }

  /** With a colon inside one of the four texts there is another fill with the same composite. */
  lemma {:induction false} ColonCollides(f: FillFields, ts: int) returns (g: FillFields)
    requires Untagged(f) && !NoColonInside(f)
    ensures Untagged(g) && OtherFill(f, ts, g, ts) && TradeId(g, ts) == TradeId(f, ts)
  {
    if ':' in f.basketId || ':' in f.exchangeOrderId {
      var c, d := JoinsAnew(f.basketId, f.exchangeOrderId);
      g := f.(basketId := c, exchangeOrderId := d);
      assert g.basketId + ":" + g.exchangeOrderId == f.basketId + ":" + f.exchangeOrderId;
    } else {
      var c, d := JoinsAnew(f.fillSize, f.fillPrice);
      g := f.(fillSize := c, fillPrice := d);
      CompositeShape(f, ts);
      CompositeShape(g, ts);
      assert TimedPart(g, ts) == TimedPart(f, ts);
    }
  }

  /**
   The composite of a fill without a venue id is its own, shared with no other fill, exactly
   when there is no colon inside its basket, exchange order id, size or price.
   */
  lemma {:induction false} CompositeUnambiguous(f: FillFields, ts: int)
    requires Untagged(f)
    ensures (forall g, us :: Untagged(g) && TradeId(g, us) == TradeId(f, ts) ==> !OtherFill(f, ts, g, us))
       <==> NoColonInside(f)
  {
    if NoColonInside(f) {
      forall g, us | Untagged(g) && TradeId(g, us) == TradeId(f, ts)
        ensures !OtherFill(f, ts, g, us)
      {
        SameColons(f, ts, g, us);
        CompositeSeparates(f, ts, g, us);
      }
    } else {
      var g := ColonCollides(f, ts);
    }
  }

  lemma {:induction false} SameColons(f: FillFields, ts: int, g: FillFields, us: int)
    requires Untagged(f) && Untagged(g) && NoColonInside(f) && TradeId(g, us) == TradeId(f, ts)
    ensures NoColonInside(g)
  {
    ColonsOfComposite(f, ts);
    ColonsOfComposite(g, us);
    NoColons(f.basketId);
    NoColons(f.exchangeOrderId);
    NoColons(f.fillSize);
    NoColons(f.fillPrice);
    NoColons(g.basketId);
    NoColons(g.exchangeOrderId);
    NoColons(g.fillSize);
    NoColons(g.fillPrice);
  }

  lemma {:induction false} TradeIdNonempty(f: FillFields, ts: int)
    ensures TradeId(f, ts) != ""
  {
  }

  /** The key as three texts around two separators. */
  function Joined(account: string, instrument: string, trade: string): string {
    account + "|" + instrument + "|" + trade
  }

  /** No separator in the account, the instrument, or the trade id before its last character. */
  predicate Separable(account: string, instrument: string, trade: string) {
    '|' !in account && '|' !in instrument && forall i :: 0 <= i < |trade| - 1 ==> trade[i] != '|'
  }

  lemma {:induction false} JoinedAt(account: string, instrument: string, trade: string)
    ensures var s := Joined(account, instrument, trade);
      && |s| == |account| + |instrument| + |trade| + 2
      && s[..|account|] == account && s[|account|] == '|'
      && s[|account| + 1..|account| + 1 + |instrument|] == instrument && s[|account| + 1 + |instrument|] == '|'
      && s[|account| + |instrument| + 2..] == trade
  {
  }

  /** With a separable key, any other split into three with something at the end is the same split. */
  lemma {:induction false} SplitIsUnique(a: string, i: string, t: string, b: string, j: string, u: string)
    requires Separable(a, i, t) && u != "" && Joined(a, i, t) == Joined(b, j, u)
    ensures a == b && i == j && t == u
  {
    var s := Joined(a, i, t);
    JoinedAt(a, i, t);
    JoinedAt(b, j, u);
    var p, q := |b|, |b| + 1 + |j|;
    assert s[p] == '|' && s[q] == '|' && p < q < |s| - 1;
    forall k | 0 <= k < |s| - 1 && k != |a| && k != |a| + 1 + |i|
      ensures s[k] != '|'
    {
      if k < |a| {
        assert s[k] == a[k];
      } else if |a| < k < |a| + 1 + |i| {
        assert s[k] == i[k - |a| - 1];
      } else if k > |a| + 1 + |i| {
        assert s[k] == t[k - |a| - |i| - 2];
      }
    }
  }

  /** Otherwise the text splits in another way. */
  lemma {:induction false} SplitsAnew(a: string, i: string, t: string) returns (b: string, j: string, u: string)
    requires !Separable(a, i, t) && t != ""
    ensures u != "" && Joined(a, i, t) == Joined(b, j, u) && !(a == b && i == j && t == u)
  {
    if k :| 0 <= k < |a| && a[k] == '|' {
      b, j, u := a[..k], a[k + 1..], i + "|" + t;
      assert a == b + "|" + j;
      assert Joined(a, i, t) == Joined(b, j, u);
    } else if k :| 0 <= k < |i| && i[k] == '|' {
      b, j, u := a, i[..k], i[k + 1..] + "|" + t;
      assert i == j + "|" + i[k + 1..];
      assert Joined(a, i, t) == Joined(b, j, u);
    } else {
      var k :| 0 <= k < |t| - 1 && t[k] == '|';
      b, j, u := a, i + "|" + t[..k], t[k + 1..];
      assert t == t[..k] + "|" + u;
      assert Joined(a, i, t) == Joined(b, j, u);
    }
  }

  /** Whether `g` names another account, instrument or trade than `f`. */
  predicate Differs(f: FillFields, ts: int, g: FillFields, us: int) {
    !(f.accountId == g.accountId && f.instrumentId == g.instrumentId && TradeId(f, ts) == TradeId(g, us))
  }

  /**
   A fill's key is its own, shared with no fill of another account, instrument or trade id,
   exactly when the separator is in neither id nor in the trade id before its last character.
   */
  lemma {:induction false} KeySeparates(f: FillFields, ts: int)
    ensures (forall g, us :: DedupKey(g, us) == DedupKey(f, ts) ==> !Differs(f, ts, g, us))
       <==> Separable(f.accountId, f.instrumentId, TradeId(f, ts))
  {
    var a, i, t := f.accountId, f.instrumentId, TradeId(f, ts);
    TradeIdNonempty(f, ts);
    assert DedupKey(f, ts) == Joined(a, i, t);
    if Separable(a, i, t) {
      forall g, us | DedupKey(g, us) == DedupKey(f, ts)
        ensures !Differs(f, ts, g, us)
      {
        TradeIdNonempty(g, us);
        SplitIsUnique(a, i, t, g.accountId, g.instrumentId, TradeId(g, us));
      }
    } else {
      var b, j, u := SplitsAnew(a, i, t);
      var g := f.(accountId := b, instrumentId := j, fillId := Some(u));
      assert TradeId(g, ts) == u && DedupKey(g, ts) == Joined(b, j, u);
      assert Differs(f, ts, g, ts);
    }
  }

  /** The input: a separator inside an id lets two different fills share a key. */
  lemma {:induction false} SeparatorCollides(f: FillFields, ts: int)
    requires f.accountId == "a|b" && f.instrumentId == "c"
    ensures DedupKey(f, ts) == DedupKey(f.(accountId := "a", instrumentId := "b|c"), ts)
  {
    var g := f.(accountId := "a", instrumentId := "b|c");
    assert TradeId(f, ts) == TradeId(g, ts);
    assert "a|b" + "|" + "c" + "|" == "a" + "|" + "b|c" + "|";
  }

  // --- the three paths --------------------------------------------------------------

  /** A sighting of a fill, with what its path needs to get as far as emitting it. */
  datatype Sighting =
    | Tracked(fields: FillFields, complete: bool, priceable: bool)
    | Untracked(fields: FillFields, identified: bool, statusPublished: bool, isFill: bool, reportBuilt: bool)
    | Reconciled(fields: FillFields, isFill: bool, inScope: bool, reportBuilt: bool, statusPublished: bool)

  function Key(s: Sighting): string {
    match s
    case Tracked(f, _, _) => DedupKey(f, IdentityTs(f))
    case Untracked(f, _, _, _, _) => DedupKey(f, IdentityTs(f))
    case Reconciled(f, _, _, _, _) => DedupKey(f, RowTs(f))
  }

  /** One fill has one identity, whichever path sees it. */
  lemma {:induction false} OneIdentity(s: Sighting, t: Sighting)
    requires s.fields == t.fields
    ensures Key(s) == Key(t)
  {
    assert IdentityTs(s.fields) == RowTs(s.fields);
  }

  /** Whether the path gets as far as looking the key up. */
  predicate Consults(s: Sighting) {
    match s
    case Tracked(_, complete, _) => complete
    case Untracked(_, identified, published, isFill, _) => identified && published && isFill
    case Reconciled(_, isFill, inScope, _, _) => isFill && inScope
  }

  /** Whether the path emits the fill when the key is new. */
  predicate Deliverable(s: Sighting) {
    match s
    case Tracked(_, _, priceable) => priceable
    case Untracked(_, _, _, _, built) => built
    case Reconciled(_, _, _, built, published) => built && published
  }

  type Keys = seq<Entry<()>>

  function See(l: Keys, s: Sighting, size: nat): Keys {
    if !Consults(s) then l
    else if Key(s) in KeySet(l) then Refresh(l, Key(s))
    else if Deliverable(s) then Put(l, Key(s), (), size)
    else l
  }

  predicate Emits(l: Keys, s: Sighting) {
    Consults(s) && Key(s) !in KeySet(l) && Deliverable(s)
  }

  function SeeAll(l: Keys, ss: seq<Sighting>, size: nat): Keys
    decreases |ss|
  {
    if ss == [] then l else SeeAll(See(l, ss[0], size), ss[1..], size)
  }

  /** The distinct keys other than `k` that a run of sightings marks or hits. */
  function Others(l: Keys, ss: seq<Sighting>, k: string, size: nat): set<string>
    decreases |ss|
  {
    if ss == [] then {}
    else
      var s := ss[0];
      (if Consults(s) && Key(s) != k && (Key(s) in KeySet(l) || Deliverable(s)) then {Key(s)} else {})
      + Others(See(l, s, size), ss[1..], k, size)
  }

  lemma {:induction false} SeeHeld(l: Keys, s: Sighting, size: nat)
    requires Held(l, size)
    ensures Held(See(l, s, size), size)
  {
    ApplyHeld(l, Op<()>.Has(Key(s)), size);
    ApplyHeld(l, Op.Insert(Key(s), ()), size);
  }

  lemma {:induction false} SeeRetains(l: Keys, k: string, s: Sighting, size: nat)
    requires Held(l, size) && k in KeySet(l)
    requires |Newer(l, k) + Others(l, [s], k, size)| < size
    ensures k in KeySet(See(l, s, size))
    ensures Newer(See(l, s, size), k) <= Newer(l, k) + Others(l, [s], k, size)
  {
    LookupAt(l, Key(s));
    assert Others(l, [s], k, size)
        == (if Consults(s) && Key(s) != k && (Key(s) in KeySet(l) || Deliverable(s)) then {Key(s)} else {});
    if !Consults(s) {
    } else if Key(s) == k {
      WithoutKeys(l, k);
      var e := Entry(k, Lookup(l, k).value);
      LastIsNewest(Without(l, k), e);
      KeySetConcat(Without(l, k), [e]);
    } else if Key(s) in KeySet(l) {
      StepRetains(l, k, Op<()>.Has(Key(s)), size);
    } else if Deliverable(s) {
      StepRetains(l, k, Op.Insert(Key(s), ()), size);
    }
  }

  /** While fewer than `size` other keys are touched, a known key stays known and is never emitted. */
  lemma {:induction false} StaysKnown(l: Keys, k: string, ss: seq<Sighting>, size: nat)
    requires Held(l, size) && k in KeySet(l)
    requires |Newer(l, k) + Others(l, ss, k, size)| < size
    ensures k in KeySet(SeeAll(l, ss, size))
    decreases |ss|
  {
    if ss != [] {
      var s, rest := ss[0], ss[1..];
      var n := See(l, s, size);
      var one, later := Others(l, [s], k, size), Others(n, rest, k, size);
      assert Others(l, [s], k, size) == one + Others(See(l, s, size), [], k, size);
      assert Others(l, ss, k, size) == one + later;
      SubsetSize(Newer(l, k) + one, Newer(l, k) + Others(l, ss, k, size));
      SeeRetains(l, k, s, size);
      SeeHeld(l, s, size);
      SubsetSize(Newer(n, k) + later, Newer(l, k) + Others(l, ss, k, size));
      StaysKnown(n, k, rest, size);
    }
  }

  /** The identity of a sighting, field by field: the venue's fill id when it sent one. */
  lemma {:induction false} KeyTable(s: Sighting)
    ensures var f := s.fields;
      var ts := if f.tsEvent.Some? then f.tsEvent.value else 0;
      && Key(s) == Joined(f.accountId, f.instrumentId, TradeId(f, ts))
      && (f.fillId.Some? && f.fillId.value != "" ==> TradeId(f, ts) == f.fillId.value)
  {
  }

  /**
   What each path needs to emit a fill that is new: a tracked one its terms and a price, an
   untracked one its identity, a published status and a report, a reconciled one a fill in scope
   with a report whose status was published. Only an emission marks the key.
   */
  lemma {:induction false} EmissionTable(l: Keys, s: Sighting, size: nat)
    ensures s.Tracked? ==> (Emits(l, s) <==> s.complete && s.priceable && Key(s) !in KeySet(l))
    ensures s.Untracked? ==>
              (Emits(l, s) <==>
               s.identified && s.statusPublished && s.isFill && s.reportBuilt && Key(s) !in KeySet(l))
    ensures s.Reconciled? ==>
              (Emits(l, s) <==> s.isFill && s.inScope && s.reportBuilt && s.statusPublished && Key(s) !in KeySet(l))
    ensures Key(s) !in KeySet(l) && !Emits(l, s) ==> See(l, s, size) == l
    ensures Emits(l, s) ==> See(l, s, size) == Put(l, Key(s), (), size)
    ensures Emission(l, s) == if Emits(l, s) then [Key(s)] else []
  {
  }

  /**
   Exactly once over any mix of the three paths: when a sighting emits a fill, a later
   sighting of the same identity emits it again only if at least `size` distinct other
   keys were touched in between.
   */
  lemma {:induction false} EmittedAtMostOnce(l: Keys, first: Sighting, between: seq<Sighting>, again: Sighting,
      size: nat)
    requires Held(l, size) && Emits(l, first) && Key(again) == Key(first)
    requires Emits(SeeAll(See(l, first, size), between, size), again)
    ensures |Others(See(l, first, size), between, Key(first), size)| >= size
  {
    var k, start := Key(first), See(l, first, size);
    PutIsNewest(l, k, (), size);
    SeeHeld(l, first, size);
    if |Others(start, between, k, size)| < size {
      assert Newer(start, k) + Others(start, between, k, size) == Others(start, between, k, size);
      StaysKnown(start, k, between, size);
    }
  }

  /** The store operations a sighting performs. */
  function OpsOf(l: Keys, s: Sighting): seq<Op<()>> {
    if !Consults(s) then []
    else if Key(s) in KeySet(l) || !Deliverable(s) then [Op.Has(Key(s))]
    else [Op.Insert(Key(s), ())]
  }

  function AllOps(l: Keys, ss: seq<Sighting>, size: nat): seq<Op<()>>
    decreases |ss|
  {
    if ss == [] then [] else OpsOf(l, ss[0]) + AllOps(See(l, ss[0], size), ss[1..], size)
  }

  lemma {:induction false} SightingsAreOps(l: Keys, ss: seq<Sighting>, k: string, size: nat)
    requires forall i :: 0 <= i < |ss| ==> Key(ss[i]) != k
    ensures ApplyAll(l, AllOps(l, ss, size), size) == SeeAll(l, ss, size)
    ensures Touches(l, AllOps(l, ss, size), size) == Others(l, ss, k, size)
    ensures Ignores(AllOps(l, ss, size), k)
    decreases |ss|
  {
    if ss != [] {
      var s, rest := ss[0], ss[1..];
      var n := See(l, s, size);
      SightingsAreOps(n, rest, k, size);
      LookupAt(l, Key(s));
      var ops := AllOps(l, ss, size);
      if OpsOf(l, s) == [] {
        assert ops == AllOps(n, rest, size);
      } else {
        assert ops[0] == OpsOf(l, s)[0] && ops[1..] == AllOps(n, rest, size);
      }
    }
  }

  /** The converse too: a deliverable replay is emitted exactly when `size` other keys came in between. */
  lemma {:induction false} ReplayEmittedExactlyWhen(l: Keys, first: Sighting, between: seq<Sighting>,
      again: Sighting, size: nat)
    requires Held(l, size) && Emits(l, first) && Key(again) == Key(first)
    requires Consults(again) && Deliverable(again)
    requires forall i :: 0 <= i < |between| ==> Key(between[i]) != Key(first)
    ensures var start := See(l, first, size);
      Emits(SeeAll(start, between, size), again) <==> |Others(start, between, Key(first), size)| >= size
  {
    var k, start := Key(first), See(l, first, size);
    SightingsAreOps(start, between, k, size);
    RememberedExactlyWhen(l, k, (), AllOps(start, between, size), size);
  }

  // --- the handlers --------------------------------------------------------------------

  /** The host side: the shared store and the keys of the fills emitted so far. */
  class Host {
    const store: Store<()>
    var emitted: seq<string>

    constructor ()
      ensures Valid() && fresh(store) && emitted == [] && store.list == []
      ensures store.maxSize == 10_000
    {
      store := new Store(MAX_SEEN_FILL_KEYS);
      emitted := [];
    }

    ghost predicate Valid()
      reads this, store
    {
      store.Valid()
    }

    /** Look the key up, emit when it is new and deliverable, and mark only what was emitted. */
    method Intake(s: Sighting)
      requires Valid() && Consults(s)
      modifies this, store
      ensures Valid()
      ensures store.list == See(old(store.list), s, store.maxSize)
      ensures emitted == old(emitted) + Emission(old(store.list), s)
    {
      LookupAt(store.list, Key(s));
      var seen := store.Has(Key(s));
      if !seen && Deliverable(s) {
        emitted := emitted + [Key(s)];
        store.Insert(Key(s), ());
      }
    }

    /** `handle_tracked_fill`. */
    method HandleTrackedFill(f: FillFields, complete: bool, priceable: bool)
      requires Valid()
      modifies this, store
      ensures Valid()
      ensures var s := Tracked(f, complete, priceable);
        && store.list == See(old(store.list), s, store.maxSize)
        && emitted == old(emitted) + Emission(old(store.list), s)
    {
      if complete {
        Intake(Tracked(f, complete, priceable));
      }
    }

    /** `handle_untracked_notification`: status first, and no fill when the status fails. */
    method HandleUntracked(f: FillFields, identified: bool, statusPublished: bool, isFill: bool, reportBuilt: bool)
      requires Valid()
      modifies this, store
      ensures Valid()
      ensures var s := Untracked(f, identified, statusPublished, isFill, reportBuilt);
        && store.list == See(old(store.list), s, store.maxSize)
        && emitted == old(emitted) + Emission(old(store.list), s)
    {
      if !identified || !statusPublished || !isFill {
        return;
      }
      Intake(Untracked(f, identified, statusPublished, isFill, reportBuilt));
    }

    /** The body of `generate_fill_reports` for one drain row. */
    method ReconcileRow(row: Sighting)
      requires Valid() && row.Reconciled?
      modifies this, store
      ensures Valid()
      ensures store.list == See(old(store.list), row, store.maxSize)
      ensures emitted == old(emitted) + Emission(old(store.list), row)
    {
      if row.isFill && row.inScope {
        Intake(row);
      }
    }

    /** `generate_fill_reports`: one pass over the drain rows. */
    method GenerateFillReports(rows: seq<Sighting>)
      requires Valid() && forall i :: 0 <= i < |rows| ==> rows[i].Reconciled?
      modifies this, store
      ensures Valid()
      ensures store.list == SeeAll(old(store.list), rows, store.maxSize)
      ensures emitted == old(emitted) + EmittedKeys(old(store.list), rows, store.maxSize)
    {
      ghost var size, known := store.maxSize, SeeAll(store.list, rows, store.maxSize);
      ghost var all := old(emitted) + EmittedKeys(store.list, rows, store.maxSize);
      for i := 0 to |rows|
        invariant Valid() && store.maxSize == size
        invariant SeeAll(store.list, rows[i..], size) == known
        invariant emitted + EmittedKeys(store.list, rows[i..], size) == all
      {
        ghost var before, sent := store.list, emitted;
        NextRow(before, rows, i, size);
        ReconcileRow(rows[i]);
        ConcatAssoc(sent, Emission(before, rows[i]), EmittedKeys(store.list, rows[i + 1..], size));
      }
    }
  }

  /** What one sighting adds to the emitted keys. */
  function Emission(l: Keys, s: Sighting): seq<string> {
    if Emits(l, s) then [Key(s)] else []
  }

  lemma {:induction false} NextRow(l: Keys, rows: seq<Sighting>, i: nat, size: nat)
    requires i < |rows|
    ensures SeeAll(l, rows[i..], size) == SeeAll(See(l, rows[i], size), rows[i + 1..], size)
    ensures EmittedKeys(l, rows[i..], size)
         == Emission(l, rows[i]) + EmittedKeys(See(l, rows[i], size), rows[i + 1..], size)
  {
    assert rows[i..][1..] == rows[i + 1..];
  }

  /** The keys a run of sightings emits, in order. */
  function EmittedKeys(l: Keys, ss: seq<Sighting>, size: nat): seq<string>
    decreases |ss|
  {
    if ss == [] then []
    else Emission(l, ss[0]) + EmittedKeys(See(l, ss[0], size), ss[1..], size)
  }
}
