/**
 The bounded recency map behind the fill dedup store: a plain recency list as the
 specification, the two-index implementation that refines it, and the exact
 condition under which a key is still remembered.
 */
module Lru {
  import opened Basics

  datatype Entry<V> = Entry(key: string, value: V)

  // --- the recency list: oldest first, one entry a key ------------------------

  function KeySet<V>(l: seq<Entry<V>>): set<string> {
    if l == [] then {} else {l[0].key} + KeySet(l[1..])
  }

  ghost predicate Distinct<V>(l: seq<Entry<V>>) {
    forall i, j :: 0 <= i < j < |l| ==> l[i].key != l[j].key
  }

  function Lookup<V>(l: seq<Entry<V>>, k: string): Option<V> {
    if l == [] then None else if l[0].key == k then Some(l[0].value) else Lookup(l[1..], k)
  }

  function Without<V>(l: seq<Entry<V>>, k: string): seq<Entry<V>> {
    if l == [] then [] else if l[0].key == k then Without(l[1..], k) else [l[0]] + Without(l[1..], k)
  }

  /** A hit moves the key to the newest end. */
  function Refresh<V>(l: seq<Entry<V>>, k: string): seq<Entry<V>> {
    match Lookup(l, k)
    case None => l
    case Some(v) => Without(l, k) + [Entry(k, v)]
  }

  /** The newest `size` entries. */
  function Cut<V>(l: seq<Entry<V>>, size: nat): seq<Entry<V>> {
    if |l| <= size then l else l[|l| - size..]
  }

  function Put<V>(l: seq<Entry<V>>, k: string, v: V, size: nat): seq<Entry<V>> {
    Cut(Without(l, k) + [Entry(k, v)], size)
  }

  // --- list facts ---------------------------------------------------------------

  lemma {:induction false} KeySetAt<V>(l: seq<Entry<V>>, k: string)
    ensures k in KeySet(l) <==> exists i :: 0 <= i < |l| && l[i].key == k
  {
    if l != [] {
      KeySetAt(l[1..], k);
      if k in KeySet(l[1..]) {
        var i :| 0 <= i < |l| - 1 && l[1..][i].key == k;
        assert l[i + 1].key == k;
      }
      assert forall i :: 1 <= i < |l| ==> l[i] == l[1..][i - 1];
    }
  }

  lemma {:induction false} KeySetConcat<V>(a: seq<Entry<V>>, b: seq<Entry<V>>)
    ensures KeySet(a + b) == KeySet(a) + KeySet(b)
  {
    if a == [] {
      assert a + b == b;
    } else {
      assert (a + b)[1..] == a[1..] + b;
      KeySetConcat(a[1..], b);
    }
  }

  lemma {:induction false} KeySetSize<V>(l: seq<Entry<V>>)
    requires Distinct(l)
    ensures |KeySet(l)| == |l|
  {
    if l != [] {
      KeySetSize(l[1..]);
      KeySetAt(l[1..], l[0].key);
    }
  }

  lemma {:induction false} LookupAt<V>(l: seq<Entry<V>>, k: string)
    ensures Lookup(l, k).Some? <==> k in KeySet(l)
    ensures Lookup(l, k).Some? ==> exists i :: 0 <= i < |l| && l[i] == Entry(k, Lookup(l, k).value)
  {
    if l != [] && l[0].key != k {
      LookupAt(l[1..], k);
      if Lookup(l, k).Some? {
        var i :| 0 <= i < |l| - 1 && l[1..][i] == Entry(k, Lookup(l, k).value);
        assert l[i + 1] == Entry(k, Lookup(l, k).value);
      }
    } else if l != [] {
      assert l[0] == Entry(k, l[0].value);
    }
  }

  lemma {:induction false} WithoutAbsent<V>(l: seq<Entry<V>>, k: string)
    requires k !in KeySet(l)
    ensures Without(l, k) == l
  {
    if l != [] { WithoutAbsent(l[1..], k); }
  }

  /** Dropping the entry at `i` of a distinct list is dropping its key. */
  lemma {:induction false} WithoutAt<V>(l: seq<Entry<V>>, i: nat)
    requires Distinct(l) && i < |l|
    ensures Without(l, l[i].key) == l[..i] + l[i + 1..]
  {
    if i == 0 {
      KeySetAt(l[1..], l[0].key);
      WithoutAbsent(l[1..], l[0].key);
    } else {
      WithoutAt(l[1..], i - 1);
      assert l[..i] + l[i + 1..] == [l[0]] + (l[1..][..i - 1] + l[1..][i..]);
    }
  }

  lemma {:induction false} WithoutKeys<V>(l: seq<Entry<V>>, k: string)
    ensures KeySet(Without(l, k)) == KeySet(l) - {k}
    ensures |Without(l, k)| <= |l|
    ensures k in KeySet(l) ==> |Without(l, k)| < |l|
  {
    if l != [] {
      WithoutKeys(l[1..], k);
    }
  }

  lemma {:induction false} WithoutDistinct<V>(l: seq<Entry<V>>, k: string)
    requires Distinct(l)
    ensures Distinct(Without(l, k))
  {
    if l != [] {
      WithoutDistinct(l[1..], k);
      if l[0].key != k {
        WithoutKeys(l[1..], k);
        KeySetAt(l[1..], l[0].key);
        KeySetAt(Without(l[1..], k), l[0].key);
      }
    }
  }

  // --- runs ---------------------------------------------------------------------

  datatype Op<V> = Has(key: string) | Get(key: string) | Insert(key: string, value: V) | Clear

  function Apply<V>(l: seq<Entry<V>>, op: Op<V>, size: nat): seq<Entry<V>> {
    match op
    case Has(k) => Refresh(l, k)
    case Get(k) => Refresh(l, k)
    case Insert(k, v) => Put(l, k, v, size)
    case Clear => []
  }

  function ApplyAll<V>(l: seq<Entry<V>>, ops: seq<Op<V>>, size: nat): seq<Entry<V>>
    decreases |ops|
  {
    if ops == [] then l else ApplyAll(Apply(l, ops[0], size), ops[1..], size)
  }

  /** The key an operation touches: the one it inserts or hits; a miss touches none. */
  function Touch<V>(l: seq<Entry<V>>, op: Op<V>): set<string> {
    match op
    case Has(k) => if k in KeySet(l) then {k} else {}
    case Get(k) => if k in KeySet(l) then {k} else {}
    case Insert(k, _) => {k}
    case Clear => {}
  }

  /** The distinct keys a run touches. */
  function Touches<V>(l: seq<Entry<V>>, ops: seq<Op<V>>, size: nat): set<string>
    decreases |ops|
  {
    if ops == [] then {} else Touch(l, ops[0]) + Touches(Apply(l, ops[0], size), ops[1..], size)
  }

  /** A list the store can hold: one entry a key, at most `size` of them. */
  ghost predicate Held<V>(l: seq<Entry<V>>, size: nat) {
    Distinct(l) && |l| <= size
  }

  lemma {:induction false} ApplyHeld<V>(l: seq<Entry<V>>, op: Op<V>, size: nat)
    requires Held(l, size)
    ensures Held(Apply(l, op, size), size)
  {
    if !op.Clear? {
      var k := op.key;
      WithoutKeys(l, k);
      WithoutDistinct(l, k);
      LookupAt(l, k);
      if op.Insert? {
        AppendDistinct(Without(l, k), Entry(k, op.value));
      } else if Lookup(l, k).Some? {
        AppendDistinct(Without(l, k), Entry(k, Lookup(l, k).value));
      }
    }
  }

  lemma {:induction false} AppendDistinct<V>(l: seq<Entry<V>>, e: Entry<V>)
    requires Distinct(l) && e.key !in KeySet(l)
    ensures Distinct(l + [e])
  {
    KeySetAt(l, e.key);
  }

  /** The keys touched more recently than `k`. */
  function Newer<V>(l: seq<Entry<V>>, k: string): set<string> {
    if l == [] then {} else if l[0].key == k then KeySet(l[1..]) else Newer(l[1..], k)
  }

  lemma {:induction false} NewerIsPart<V>(l: seq<Entry<V>>, k: string)
    requires Distinct(l) && k in KeySet(l)
    ensures |Newer(l, k)| < |l|
  {
    if l[0].key == k {
      KeySetSize(l[1..]);
    } else {
      NewerIsPart(l[1..], k);
    }
  }

  lemma {:induction false} NewerAfterMove<V>(l: seq<Entry<V>>, k: string, e: Entry<V>)
    requires Distinct(l) && k in KeySet(l) && e.key != k
    ensures Newer(Without(l, e.key) + [e], k) == Newer(l, k) + {e.key}
    ensures KeySet(Without(l, e.key) + [e]) == KeySet(l) + {e.key}
  {
    WithoutKeys(l, e.key);
    KeySetConcat(Without(l, e.key), [e]);
    var rest := l[1..];
    WithoutKeys(rest, e.key);
    KeySetConcat(Without(rest, e.key), [e]);
    if l[0].key == k {
      assert (Without(l, e.key) + [e])[1..] == Without(rest, e.key) + [e];
    } else {
      NewerAfterMove(rest, k, e);
      if l[0].key != e.key {
        assert (Without(l, e.key) + [e])[1..] == Without(rest, e.key) + [e];
      }
    }
  }

  /** One operation on other keys keeps `k` and records the touch, or evicts it when full. */
  lemma {:induction false} StepRetains<V>(l: seq<Entry<V>>, k: string, op: Op<V>, size: nat)
    requires Held(l, size) && k in KeySet(l)
    requires !op.Clear? && op.key != k
    ensures var n := Apply(l, op, size);
      if k in KeySet(n) then Newer(n, k) == Newer(l, k) + Touch(l, op) else |Newer(l, k) + Touch(l, op)| >= size
  {
    LookupAt(l, op.key);
    if op.Insert? {
      var e := Entry(op.key, op.value);
      var moved := Without(l, op.key) + [e];
      NewerAfterMove(l, k, e);
      WithoutKeys(l, op.key);
      WithoutDistinct(l, op.key);
      if |moved| > size {
        KeySetAt(Without(l, op.key), op.key);
        CutOne(moved, k, size);
      }
    } else if Lookup(l, op.key).Some? {
      NewerAfterMove(l, k, Entry(op.key, Lookup(l, op.key).value));
    }
  }

  /** Cutting one entry off a full list loses `k` only when `k` was the oldest. */
  lemma {:induction false} CutOne<V>(l: seq<Entry<V>>, k: string, size: nat)
    requires Distinct(l) && |l| == size + 1 && k in KeySet(l)
    ensures if k in KeySet(Cut(l, size)) then Newer(Cut(l, size), k) == Newer(l, k) else |Newer(l, k)| == size
  {
    assert Cut(l, size) == l[1..];
    if l[0].key == k {
      KeySetAt(l[1..], k);
      KeySetSize(l[1..]);
    }
  }

  lemma {:induction false} AddsOnlyInserted<V>(l: seq<Entry<V>>, op: Op<V>, size: nat)
    ensures KeySet(Apply(l, op, size)) <= KeySet(l) + (if op.Insert? then {op.key} else {})
  {
    if !op.Clear? {
      LookupAt(l, op.key);
      WithoutKeys(l, op.key);
      if op.Insert? {
        var moved := Without(l, op.key) + [Entry(op.key, op.value)];
        KeySetConcat(Without(l, op.key), [Entry(op.key, op.value)]);
        CutKeys(moved, size);
      } else if Lookup(l, op.key).Some? {
        KeySetConcat(Without(l, op.key), [Entry(op.key, Lookup(l, op.key).value)]);
      }
    }
  }

  lemma {:induction false} CutKeys<V>(l: seq<Entry<V>>, size: nat)
    ensures KeySet(Cut(l, size)) <= KeySet(l)
  {
    var n := |l| - |Cut(l, size)|;
    assert l == l[..n] + Cut(l, size);
    KeySetConcat(l[..n], Cut(l, size));
  }

  ghost predicate Ignores<V>(ops: seq<Op<V>>, k: string) {
    forall i :: 0 <= i < |ops| ==> !ops[i].Clear? && ops[i].key != k
  }

  /** A key nobody names does not come back. */
  lemma {:induction false} AbsentStays<V>(l: seq<Entry<V>>, k: string, ops: seq<Op<V>>, size: nat)
    requires k !in KeySet(l) && Ignores(ops, k)
    ensures k !in KeySet(ApplyAll(l, ops, size))
    decreases |ops|
  {
    if ops != [] {
      AddsOnlyInserted(l, ops[0], size);
      AbsentStays(Apply(l, ops[0], size), k, ops[1..], size);
    }
  }

  lemma {:induction false} RetainedFrom<V>(l: seq<Entry<V>>, k: string, ops: seq<Op<V>>, size: nat)
    requires Held(l, size) && k in KeySet(l) && Ignores(ops, k)
    ensures k in KeySet(ApplyAll(l, ops, size)) <==> |Newer(l, k) + Touches(l, ops, size)| < size
    decreases |ops|
  {
    if ops == [] {
      NewerIsPart(l, k);
      assert Newer(l, k) + {} == Newer(l, k);
    } else {
      var op, n := ops[0], Apply(l, ops[0], size);
      var later := Touches(n, ops[1..], size);
      StepRetains(l, k, op, size);
      ApplyHeld(l, op, size);
      assert Newer(l, k) + Touches(l, ops, size) == (Newer(l, k) + Touch(l, op)) + later;
      if k in KeySet(n) {
        RetainedFrom(n, k, ops[1..], size);
      } else {
        AbsentStays(n, k, ops[1..], size);
        SubsetSize(Newer(l, k) + Touch(l, op), (Newer(l, k) + Touch(l, op)) + later);
      }
    }
  }

  lemma {:induction false} SubsetSize(a: set<string>, b: set<string>)
    requires a <= b
    ensures |a| <= |b|
  {
    assert b == a + (b - a);
  }

  /**
   A key just recorded is still remembered after any later operations on other keys
   exactly when they touched fewer than `size` distinct keys.
   */
  lemma {:induction false} RememberedExactlyWhen<V>(l: seq<Entry<V>>, k: string, v: V, ops: seq<Op<V>>, size: nat)
    requires Held(l, size) && Ignores(ops, k)
    ensures var start := Put(l, k, v, size);
      k in KeySet(ApplyAll(start, ops, size)) <==> |Touches(start, ops, size)| < size
  {
    var start := Put(l, k, v, size);
    PutIsNewest(l, k, v, size);
    ApplyHeld(l, Insert(k, v), size);
    if size > 0 {
      RetainedFrom(start, k, ops, size);
      assert Newer(start, k) + Touches(start, ops, size) == Touches(start, ops, size);
    } else {
      AbsentStays(start, k, ops, size);
    }
  }

  lemma {:induction false} PutIsNewest<V>(l: seq<Entry<V>>, k: string, v: V, size: nat)
    requires Held(l, size)
    ensures var start := Put(l, k, v, size);
      if size == 0 then start == [] else k in KeySet(start) && Newer(start, k) == {}
  {
    var start := Put(l, k, v, size);
    if size > 0 {
      var older := start[..|start| - 1];
      assert start == older + [Entry(k, v)];
      KeySetConcat(older, [Entry(k, v)]);
      WithoutKeys(l, k);
      var cut := |Without(l, k)| - |older|;
      assert older == Without(l, k)[cut..];
      assert Without(l, k) == Without(l, k)[..cut] + older;
      KeySetConcat(Without(l, k)[..cut], older);
      LastIsNewest(older, Entry(k, v));
    }
  }

  lemma {:induction false} LastIsNewest<V>(older: seq<Entry<V>>, e: Entry<V>)
    requires e.key !in KeySet(older)
    ensures Newer(older + [e], e.key) == {}
  {
    if older != [] {
      assert (older + [e])[1..] == older[1..] + [e];
      LastIsNewest(older[1..], e);
    }
  }

  // --- the two-index store --------------------------------------------------------

  datatype Slot<V> = Slot(value: V, tick: nat)

  /** The value map and the tick index are inverse to each other. */
  ghost predicate Inverse<V>(entries: map<string, Slot<V>>, byRecency: map<nat, string>) {
    && (forall k :: k in entries ==> entries[k].tick in byRecency && byRecency[entries[k].tick] == k)
    && (forall t :: t in byRecency ==> byRecency[t] in entries && entries[byRecency[t]].tick == t)
  }

  /** The value map holds exactly the list, with ticks growing along it. */
  ghost predicate Stamped<V>(entries: map<string, Slot<V>>, list: seq<Entry<V>>) {
    && entries.Keys == KeySet(list)
    && (forall i :: 0 <= i < |list| ==> list[i].key in entries && entries[list[i].key].value == list[i].value)
    && (forall i, j :: 0 <= i < j < |list| ==> entries[list[i].key].tick < entries[list[j].key].tick)
  }

  ghost predicate Indexed<V>(entries: map<string, Slot<V>>, byRecency: map<nat, string>, clock: nat,
      list: seq<Entry<V>>) {
    Inverse(entries, byRecency) && Stamped(entries, list) && forall t :: t in byRecency ==> t <= clock
  }

  lemma {:induction false} StampedIsDistinct<V>(entries: map<string, Slot<V>>, list: seq<Entry<V>>)
    requires Stamped(entries, list)
    ensures Distinct(list)
  {
  }

  lemma {:induction false} StampedAppend<V>(entries: map<string, Slot<V>>, list: seq<Entry<V>>, k: string, v: V,
      tick: nat)
    requires Stamped(entries, list) && k !in entries
    requires forall j :: j in entries ==> entries[j].tick < tick
    ensures Stamped(entries[k := Slot(v, tick)], list + [Entry(k, v)])
  {
    KeySetAt(list, k);
    KeySetConcat(list, [Entry(k, v)]);
  }

  lemma {:induction false} StampedRemoveAt<V>(entries: map<string, Slot<V>>, list: seq<Entry<V>>, i: nat,
      rest: seq<Entry<V>>)
    requires Stamped(entries, list) && i < |list| && rest == list[..i] + list[i + 1..]
    requires KeySet(rest) == KeySet(list) - {list[i].key}
    ensures Stamped(entries - {list[i].key}, rest)
  {
    var left := entries - {list[i].key};
    forall p | 0 <= p < |rest| ensures rest[p].key in left && left[rest[p].key].value == rest[p].value {
      KeySetAt(rest, rest[p].key);
      var at := if p < i then p else p + 1;
      assert rest[p] == list[at];
    }
    forall p, q | 0 <= p < q < |rest| ensures left[rest[p].key].tick < left[rest[q].key].tick {
      assert rest[p] == list[if p < i then p else p + 1];
      assert rest[q] == list[if q < i then q else q + 1];
    }
  }

  lemma {:induction false} StampedRemove<V>(entries: map<string, Slot<V>>, list: seq<Entry<V>>, k: string)
    requires Stamped(entries, list)
    ensures Stamped(entries - {k}, Without(list, k))
  {
    if k in entries {
      StampedIsDistinct(entries, list);
      WithoutKeys(list, k);
      KeySetAt(list, k);
      var i :| 0 <= i < |list| && list[i].key == k;
      WithoutAt(list, i);
      StampedRemoveAt(entries, list, i, Without(list, k));
    } else {
      WithoutAbsent(list, k);
      assert entries - {k} == entries;
    }
  }

  /** The tick index after `k` left it, whether or not it was there. */
  function Unindex<V>(entries: map<string, Slot<V>>, byRecency: map<nat, string>, k: string): map<nat, string> {
    if k in entries then byRecency - {entries[k].tick} else byRecency
  }

  /** Recording `k` under a new tick, in place of any older one, moves it to the end of the list. */
  lemma {:induction false} IndexMove<V>(entries: map<string, Slot<V>>, byRecency: map<nat, string>, clock: nat,
                                        list: seq<Entry<V>>, k: string, v: V)
    requires Indexed(entries, byRecency, clock, list)
    ensures Indexed(entries[k := Slot(v, clock + 1)], Unindex(entries, byRecency, k)[clock + 1 := k], clock + 1,
                    Without(list, k) + [Entry(k, v)])
  {
    StampedRemove(entries, list, k);
    StampedAppend(entries - {k}, Without(list, k), k, v, clock + 1);
    assert (entries - {k})[k := Slot(v, clock + 1)] == entries[k := Slot(v, clock + 1)];
  }

  /** The smallest tick belongs to the head of the list, and dropping it drops the head. */
  lemma {:induction false} IndexPop<V>(entries: map<string, Slot<V>>, byRecency: map<nat, string>, clock: nat,
      list: seq<Entry<V>>)
    requires Indexed(entries, byRecency, clock, list) && list != []
    ensures var k := list[0].key;
      && entries[k].tick in byRecency
      && (forall t :: t in byRecency ==> entries[k].tick <= t)
      && Indexed(entries - {k}, byRecency - {entries[k].tick}, clock, list[1..])
  {
    var k := list[0].key;
    forall t | t in byRecency ensures entries[k].tick <= t {
      KeySetAt(list, byRecency[t]);
    }
    StampedRemove(entries, list, k);
    StampedIsDistinct(entries, list);
    WithoutAt(list, 0);
    assert list[..0] + list[1..] == list[1..];
  }

  lemma {:induction false} StampedSize<V>(entries: map<string, Slot<V>>, list: seq<Entry<V>>)
    requires Stamped(entries, list)
    ensures |entries| == |list|
  {
    StampedIsDistinct(entries, list);
    KeySetSize(list);
    assert |entries.Keys| == |entries|;
  }

  lemma {:induction false} RefreshSize<V>(list: seq<Entry<V>>, k: string)
    requires Lookup(list, k).Some?
    ensures Refresh(list, k) == Without(list, k) + [Entry(k, Lookup(list, k).value)]
    ensures |Refresh(list, k)| <= |list|
  {
    LookupAt(list, k);
    WithoutKeys(list, k);
  }

  /** The smallest tick of the ordered index, and the key it maps to. */
  method FirstTick(byRecency: map<nat, string>, ghost least: nat) returns (tick: nat, key: string)
    requires least in byRecency && forall t :: t in byRecency ==> least <= t
    ensures tick == least && key == byRecency[least]
  {
    tick :| tick in byRecency && forall t :: t in byRecency ==> tick <= t;
    key := byRecency[tick];
  }

  /**
   A value map stamped with ticks and an ordered map from ticks back to keys. The
   ghost `list` is the recency list both indexes stand for.
   */
  class Store<V> {
    var entries: map<string, Slot<V>>
    var byRecency: map<nat, string>
    var clock: nat
    const maxSize: nat
    ghost var list: seq<Entry<V>>

    ghost predicate Valid()
      reads this
    {
      Indexed(entries, byRecency, clock, list) && |list| <= maxSize
    }

    constructor (maxSize: nat)
      ensures Valid() && list == [] && this.maxSize == maxSize
    {
      this.maxSize := maxSize;
      entries, byRecency, clock, list := map[], map[], 0, [];
    }

    /** Give a present key the newest tick. */
    method TouchKey(k: string)
      requires Valid() && k in entries
      modifies this
      ensures Valid() && list == Refresh(old(list), k)
      ensures k in entries && Some(entries[k].value) == Lookup(old(list), k)
    {
      StoredValue(entries, list, k);
      RefreshSize(list, k);
      var slot := entries[k];
      ghost var ticks := Unindex(entries, byRecency, k)[clock + 1 := k];
      IndexMove(entries, byRecency, clock, list, k, slot.value);
      clock := clock + 1;
      byRecency := (byRecency - {slot.tick})[clock := k];
      entries := entries[k := Slot(slot.value, clock)];
      list := Refresh(list, k);
      assert byRecency == ticks;
    }

    /** Membership; a hit refreshes recency. */
    method Has(k: string) returns (hit: bool)
      requires Valid()
      modifies this
      ensures Valid() && list == Refresh(old(list), k)
      ensures hit <==> k in KeySet(old(list))
    {
      LookupAt(list, k);
      hit := k in entries;
      if hit {
        TouchKey(k);
      }
    }

    /** The stored value; a hit refreshes recency. */
    method Get(k: string) returns (r: Option<V>)
      requires Valid()
      modifies this
      ensures Valid() && list == Refresh(old(list), k)
      ensures r == Lookup(old(list), k)
    {
      LookupAt(list, k);
      if k !in entries {
        return None;
      }
      TouchKey(k);
      return Some(entries[k].value);
    }

    /** Record `k` as newest and evict the oldest past the bound. */
    method Insert(k: string, v: V)
      requires Valid()
      modifies this
      ensures Valid() && list == Put(old(list), k, v, maxSize)
    {
      ghost var ticks := Unindex(entries, byRecency, k)[clock + 1 := k];
      IndexMove(entries, byRecency, clock, list, k, v);
      clock := clock + 1;
      if k in entries {
        byRecency := byRecency - {entries[k].tick};
      }
      entries := entries[k := Slot(v, clock)];
      byRecency := byRecency[clock := k];
      assert byRecency == ticks;
      list := Without(list, k) + [Entry(k, v)];
      Evict();
    }

    /** Drop the entry with the smallest tick. */
    method PopFirst()
      requires Indexed(entries, byRecency, clock, list) && list != []
      modifies this
      ensures Indexed(entries, byRecency, clock, list) && list == old(list)[1..]
    {
      IndexPop(entries, byRecency, clock, list);
      var tick, oldest := FirstTick(byRecency, entries[list[0].key].tick);
      byRecency := byRecency - {tick};
      entries := entries - {oldest};
      list := list[1..];
    }

    /** Pop the oldest until the bound holds. */
    method Evict()
      requires Indexed(entries, byRecency, clock, list)
      modifies this
      ensures Valid() && list == Cut(old(list), maxSize)
    {
      StampedSize(entries, list);
      ghost var gone := 0;
      while |entries| > maxSize
        invariant Indexed(entries, byRecency, clock, list) && |entries| == |list|
        invariant 0 <= gone <= |old(list)| && list == old(list)[gone..]
        invariant gone == 0 || |list| >= maxSize
        decreases |list|
      {
        PopFirst();
        gone := gone + 1;
        StampedSize(entries, list);
      }
    }

    method Clear()
      modifies this
      ensures Valid() && list == []
    {
      entries, byRecency, list := map[], map[], [];
    }
  }

  lemma {:induction false} LookupDistinct<V>(l: seq<Entry<V>>, i: nat)
    requires Distinct(l) && i < |l|
    ensures Lookup(l, l[i].key) == Some(l[i].value)
  {
    if i > 0 { LookupDistinct(l[1..], i - 1); }
  }

  lemma {:induction false} StoredValue<V>(entries: map<string, Slot<V>>, list: seq<Entry<V>>, k: string)
    requires Stamped(entries, list) && k in entries
    ensures Lookup(list, k) == Some(entries[k].value)
  {
    KeySetAt(list, k);
    var i :| 0 <= i < |list| && list[i].key == k;
    StampedIsDistinct(entries, list);
    LookupDistinct(list, i);
  }
}
