/**
 Bar history over a wide window: cut the window into slices, load each, concatenate and
 drop repeated bars. For which histories is that the same as one load of the window?
 */
module HistoryWindow {
  import opened Basics

  newtype i32 = x: int | -0x8000_0000 <= x < 0x8000_0000

  datatype Slice = Slice(lo: int, hi: int)

  datatype NativeSlice = NativeSlice(lo: i32, hi: i32)

  // ---------------------------------------------------------------- slices

  /** The slices from `cur` on. */
  function Cut(cur: int, end: int, step: int): seq<Slice>
    requires step >= 1
    decreases end - cur
  {
    if cur + step >= end then [Slice(cur, end)] else [Slice(cur, cur + step)] + Cut(cur + step, end, step)
  }

  function Slices(start: int, end: int, step: int): seq<Slice> {
    if start > end || step < 1 then [] else Cut(start, end, step)
  }

  /** What the slices are, said without the loop that makes them. */
  ghost predicate Tiles(slices: seq<Slice>, start: int, end: int, step: int) {
    && slices != []
    && slices[0].lo == start
    && slices[|slices| - 1].hi == end
    && (forall j :: 0 <= j < |slices| ==> 0 <= slices[j].hi - slices[j].lo <= step)
    && (forall j :: 0 <= j < |slices| - 1 ==> slices[j].hi == slices[j + 1].lo)
    && (forall j :: 0 <= j < |slices| - 1 ==> slices[j].hi == slices[j].lo + step)
    && (forall j :: 0 <= j < |slices| ==> slices[j].hi > slices[j].lo || start == end)
  }

  lemma {:induction false} CutTiles(start: int, end: int, step: int)
    requires step >= 1 && start <= end
    ensures Tiles(Cut(start, end, step), start, end, step)
    decreases end - start
  {
    if start + step < end {
      CutTiles(start + step, end, step);
    }
  }

  /** There is only one such list of slices. */
  lemma {:induction false} TilesUnique(slices: seq<Slice>, start: int, end: int, step: int)
    requires step >= 1 && start <= end && Tiles(slices, start, end, step)
    ensures slices == Cut(start, end, step)
    decreases |slices|
  {
    if |slices| > 1 {
      var rest := slices[1..];
      RestTiles(slices, start, end, step);
      TilesUnique(rest, start + step, end, step);
      assert slices == [slices[0]] + rest;
      assert slices[0] == Slice(start, start + step);
    }
  }

  lemma {:induction false} RestTiles(slices: seq<Slice>, start: int, end: int, step: int)
    requires step >= 1 && start <= end && Tiles(slices, start, end, step) && |slices| > 1
    ensures start + step < end && Tiles(slices[1..], start + step, end, step)
  {
    var rest := slices[1..];
    assert forall j :: 0 <= j < |rest| ==> rest[j] == slices[j + 1];
    Ascends(slices, start, end, step, 1);
    assert slices[1].hi > slices[1].lo;
  }

  /** From slice `j` on, the slices end no earlier than slice `j`. */
  lemma {:induction false} Ascends(slices: seq<Slice>, start: int, end: int, step: int, j: nat)
    requires Tiles(slices, start, end, step) && j < |slices|
    ensures slices[j].hi <= end
    decreases |slices| - j
  {
    if j < |slices| - 1 {
      Ascends(slices, start, end, step, j + 1);
    }
  }

  /** Every second of the window is in a slice. */
  lemma {:induction false} Covered(start: int, end: int, step: int, t: int) returns (k: nat)
    requires step >= 1 && start <= t <= end
    ensures k < |Slices(start, end, step)|
    ensures Slices(start, end, step)[k].lo <= t <= Slices(start, end, step)[k].hi
    decreases end - start
  {
    if start + step >= end || t <= start + step {
      k := 0;
    } else {
      k := Covered(start + step, end, step, t);
      k := k + 1;
    }
  }

  /** Two slices share a second only when they are neighbours, and then only the boundary. */
  lemma {:induction false} ShareOnlyBoundary(start: int, end: int, step: int, i: nat, j: nat, t: int)
    requires step >= 1 && start <= end
    requires i < j < |Slices(start, end, step)|
    requires Slices(start, end, step)[i].lo <= t <= Slices(start, end, step)[i].hi
    requires Slices(start, end, step)[j].lo <= t <= Slices(start, end, step)[j].hi
    ensures j == i + 1 && t == Slices(start, end, step)[i].hi
    ensures start <= t <= end
  {
    var slices := Cut(start, end, step);
    CutTiles(start, end, step);
    Separate(slices, start, end, step, i, j);
    if j > i + 1 {
      Separate(slices, start, end, step, i + 1, j);
    }
    Ascends(slices, start, end, step, i);
    StartsAfter(slices, start, end, step, i);
  }

  lemma {:induction false} Separate(slices: seq<Slice>, start: int, end: int, step: int, i: nat, j: nat)
    requires Tiles(slices, start, end, step) && i < j < |slices|
    ensures slices[i].hi <= slices[j].lo
    decreases j
  {
    if j > i + 1 {
      Separate(slices, start, end, step, i, j - 1);
    }
  }

  lemma {:induction false} StartsAfter(slices: seq<Slice>, start: int, end: int, step: int, i: nat)
    requires Tiles(slices, start, end, step) && i < |slices|
    ensures start <= slices[i].lo
  {
    if i > 0 {
      Separate(slices, start, end, step, 0, i);
    }
  }

  function Widened(s: seq<NativeSlice>): (r: seq<Slice>)
    ensures |r| == |s| && forall j :: 0 <= j < |s| ==> r[j] == Slice(s[j].lo as int, s[j].hi as int)
  {
    seq(|s|, j requires 0 <= j < |s| => Slice(s[j].lo as int, s[j].hi as int))
  }

  /** Addition that answers None instead of wrapping. */
  function CheckedAdd(a: i32, b: i32): Option<i32> {
    var sum := a as int + b as int;
    if -0x8000_0000 <= sum < 0x8000_0000 then Some(sum as i32) else None
  }

  /** The 32-bit loop: no input overflows, and it gives the unbounded answer. */
  method NativeWindowSlices(start: i32, end: i32, step: i32) returns (out: seq<NativeSlice>)
    ensures Widened(out) == Slices(start as int, end as int, step as int)
  {
    if start > end || step < 1 {
      return [];
    }
    out := [];
    var cur := start;
    while cur <= end
      invariant start <= cur <= end
      invariant Widened(out) + Cut(cur as int, end as int, step as int) == Cut(start as int, end as int, step as int)
      decreases end as int - cur as int
    {
      var sum := CheckedAdd(cur, step);
      var nxt := if sum.Some? && sum.value < end then sum.value else end;
      ghost var was := Widened(out);
      out := out + [NativeSlice(cur, nxt)];
      assert Widened(out) == was + [Slice(cur as int, nxt as int)];
      if nxt >= end {
        break;
      }
      cur := nxt;
    }
  }

  /** The unbounded loop of the Python client. */
  method WindowSlices(start: int, end: int, step: int) returns (out: seq<Slice>)
    ensures out == Slices(start, end, step)
  {
    if start > end || step < 1 {
      return [];
    }
    out := [];
    var cur := start;
    while cur <= end
      invariant start <= cur <= end
      invariant out + Cut(cur, end, step) == Cut(start, end, step)
      decreases end - cur
    {
      var nxt := cur + step;
      if nxt >= end || nxt < cur {
        nxt := end;
      }
      out := out + [Slice(cur, nxt)];
      if nxt >= end {
        break;
      }
      cur := nxt;
    }
  }

  // ---------------------------------------------------------------- slice length

  datatype TimeBarType = SecondBar | MinuteBar | DailyBar | WeeklyBar

  function NativeBarSliceSecs(barType: TimeBarType, period: i32): i32 {
    match barType
    case DailyBar => 0x7fff_ffff / 4
    case WeeklyBar => 0x7fff_ffff / 4
    case MinuteBar =>
      if period >= 60 then 180 * 24 * 60 * 60 else if period >= 15 then 90 * 24 * 60 * 60 else 40 * 24 * 60 * 60
    case SecondBar => 2 * 60 * 60
  }

  function ParseTimeBarType(wire: i32): Result<TimeBarType, i32> {
    if wire == 1 then Ok(SecondBar)
    else if wire == 2 then Ok(MinuteBar)
    else if wire == 3 then Ok(DailyBar)
    else if wire == 4 then Ok(WeeklyBar)
    else Err(wire)
  }

  /** The client's own table; a type it does not know is cut like minutes. */
  function BarSliceSecs(barType: int, period: int): (secs: int)
    ensures secs >= 1
  {
    if barType == 3 || barType == 4 then 0x7fff_ffff / 4
    else if barType == 2 then
      if period >= 60 then 180 * 24 * 60 * 60 else if period >= 15 then 90 * 24 * 60 * 60 else 40 * 24 * 60 * 60
    else if barType == 1 then 2 * 60 * 60
    else 40 * 24 * 60 * 60
  }

  /** A client cuts a window exactly where the gateway does. */
  lemma {:induction false} SameCuts(wire: i32, period: i32, start: i32, end: i32)
    requires ParseTimeBarType(wire).Ok?
    ensures Slices(start as int, end as int, NativeBarSliceSecs(ParseTimeBarType(wire).value, period) as int)
            == Slices(start as int, end as int, BarSliceSecs(wire as int, period as int))
  {
    assert NativeBarSliceSecs(ParseTimeBarType(wire).value, period) as int == BarSliceSecs(wire as int, period as int);
  }

  // ---------------------------------------------------------------- bars

  datatype Bar = Bar(time: int, marker: Option<int>, tsEventNs: Option<int>, payload: int)

  datatype BarKey = Marker(marker: int) | Ts(tsEventNs: Option<int>)

  function KeyOf(bar: Bar): BarKey {
    if bar.marker.Some? then Marker(bar.marker.value) else Ts(bar.tsEventNs)
  }

  /** The venue's answer for the inclusive window `[lo, hi]`. */
  function Load(history: seq<Bar>, lo: int, hi: int): seq<Bar> {
    if history == [] then []
    else (if lo <= history[0].time <= hi then [history[0]] else []) + Load(history[1..], lo, hi)
  }

  function LoadAll(history: seq<Bar>, slices: seq<Slice>): seq<Bar> {
    if slices == [] then [] else Load(history, slices[0].lo, slices[0].hi) + LoadAll(history, slices[1..])
  }

  /** The bars whose key is neither in `seen` nor carried by an earlier bar. */
  function Unseen(seen: set<BarKey>, bars: seq<Bar>): seq<Bar>
    decreases |bars|
  {
    if bars == [] then []
    else if KeyOf(bars[0]) in seen then Unseen(seen, bars[1..])
    else [bars[0]] + Unseen(seen + {KeyOf(bars[0])}, bars[1..])
  }

  function Keys(bars: seq<Bar>): set<BarKey> {
    set b | b in bars :: KeyOf(b)
  }

  method DedupeBarsByMarker(bars: seq<Bar>) returns (out: seq<Bar>)
    ensures out == Unseen({}, bars)
  {
    var seen: set<BarKey> := {};
    out := [];
    var i := 0;
    while i < |bars|
      invariant 0 <= i <= |bars|
      invariant out + Unseen(seen, bars[i..]) == Unseen({}, bars)
    {
      var key := KeyOf(bars[i]);
      assert bars[i..][0] == bars[i] && bars[i..][1..] == bars[i + 1..];
      if key !in seen {
        seen := seen + {key};
        out := out + [bars[i]];
      }
      i := i + 1;
    }
  }

  method LoadTimeBarsRange(history: seq<Bar>, start: int, end: int, barType: int, period: int) returns (bars: seq<Bar>)
    ensures bars == Unseen({}, LoadAll(history, Slices(start, end, BarSliceSecs(barType, period))))
    ensures Ordered(history) && DistinctKeys(history) ==> bars == Load(history, start, end)
  {
    var merged: seq<Bar> := [];
    var slices := WindowSlices(start, end, BarSliceSecs(barType, period));
    var i := 0;
    while i < |slices|
      invariant 0 <= i <= |slices|
      invariant merged + LoadAll(history, slices[i..]) == LoadAll(history, slices)
    {
      assert slices[i..][0] == slices[i] && slices[i..][1..] == slices[i + 1..];
      merged := merged + Load(history, slices[i].lo, slices[i].hi);
      i := i + 1;
    }
    assert merged == LoadAll(history, slices);
    bars := DedupeBarsByMarker(merged);
    if Ordered(history) && DistinctKeys(history) {
      ChunkedIsWhole(history, start, end, BarSliceSecs(barType, period));
    }
  }

  // ---------------------------------------------------------------- merge theorem

  ghost predicate Ordered(history: seq<Bar>) {
    forall i, j :: 0 <= i < j < |history| ==> history[i].time <= history[j].time
  }

  ghost predicate DistinctKeys(history: seq<Bar>) {
    forall i, j :: 0 <= i < j < |history| ==> KeyOf(history[i]) != KeyOf(history[j])
  }

  lemma {:induction false} LoadHolds(history: seq<Bar>, lo: int, hi: int, b: Bar)
    ensures b in Load(history, lo, hi) <==> b in history && lo <= b.time <= hi
  {
    if history != [] {
      LoadHolds(history[1..], lo, hi, b);
      assert history == [history[0]] + history[1..];
    }
  }

  /** Deduping is one pass: the second part sees the keys of the first. */
  lemma {:induction false} UnseenConcat(seen: set<BarKey>, a: seq<Bar>, b: seq<Bar>)
    ensures Unseen(seen, a + b) == Unseen(seen, a) + Unseen(seen + Keys(a), b)
    decreases |a|
  {
    if a == [] {
      assert a + b == b;
      assert seen + Keys(a) == seen;
    } else {
      assert (a + b)[1..] == a[1..] + b;
      var next := seen + {KeyOf(a[0])};
      assert a == [a[0]] + a[1..];
      assert next + Keys(a[1..]) == seen + Keys(a);
      UnseenConcat(next, a[1..], b);
      if KeyOf(a[0]) in seen {
        assert next == seen;
      }
    }
  }

  /** A slice after the keys of all earlier times are seen leaves the later bars of the slice. */
  lemma {:induction false} SliceLeaves(history: seq<Bar>, lo: int, hi: int, p: int, seen: set<BarKey>)
    requires DistinctKeys(history) && lo <= p
    requires forall b :: b in history && lo <= b.time <= hi ==> (KeyOf(b) in seen <==> b.time < p)
    ensures Unseen(seen, Load(history, lo, hi)) == Load(history, p, hi)
  {
    if history != [] {
      var first, rest := history[0], history[1..];
      if p <= first.time <= hi {
        forall b | b in rest && lo <= b.time <= hi
          ensures KeyOf(b) in seen + {KeyOf(first)} <==> b.time < p
        {
          var j :| 0 <= j < |rest| && rest[j] == b;
          assert KeyOf(history[0]) != KeyOf(history[j + 1]);
        }
        SliceLeaves(rest, lo, hi, p, seen + {KeyOf(first)});
        assert Load(history, lo, hi)[1..] == Load(rest, lo, hi);
      } else {
        SliceLeaves(rest, lo, hi, p, seen);
        assert Load(history, p, hi) == Load(rest, p, hi);
        if lo <= first.time <= hi {
          assert first in history && KeyOf(first) in seen;
          assert Load(history, lo, hi)[1..] == Load(rest, lo, hi);
        } else {
          assert Load(history, lo, hi) == Load(rest, lo, hi);
        }
      }
    }
  }

  lemma {:induction false} LoadSplits(history: seq<Bar>, lo: int, mid: int, hi: int)
    requires Ordered(history) && lo <= mid + 1 <= hi + 1
    ensures Load(history, lo, mid) + Load(history, mid + 1, hi) == Load(history, lo, hi)
  {
    if history != [] {
      LoadSplits(history[1..], lo, mid, hi);
      if history[0].time > mid {
        LoadEmpty(history, lo, mid);
      }
    }
  }

  lemma {:induction false} LoadEmpty(history: seq<Bar>, lo: int, hi: int)
    requires forall j :: 0 <= j < |history| ==> !(lo <= history[j].time <= hi)
    ensures Load(history, lo, hi) == []
  {
    if history != [] {
      LoadEmpty(history[1..], lo, hi);
    }
  }

  lemma {:induction false} KeyOfLoad(history: seq<Bar>, lo: int, hi: int, b: Bar)
    requires DistinctKeys(history) && b in history
    ensures KeyOf(b) in Keys(Load(history, lo, hi)) <==> lo <= b.time <= hi
  {
    LoadHolds(history, lo, hi, b);
    if c :| c in Load(history, lo, hi) && KeyOf(c) == KeyOf(b) {
      LoadHolds(history, lo, hi, c);
      var i :| 0 <= i < |history| && history[i] == b;
      var j :| 0 <= j < |history| && history[j] == c;
      assert i == j;
    }
  }

  lemma {:induction false} KeysGrow(history: seq<Bar>, start: int, p: int, cur: int, nxt: int)
    requires start <= cur <= p <= cur + 1 && cur <= nxt
    ensures Keys(Load(history, start, p - 1)) + Keys(Load(history, cur, nxt)) == Keys(Load(history, start, nxt))
  {
    forall b: Bar
      ensures b in Load(history, start, p - 1) || b in Load(history, cur, nxt) <==> b in Load(history, start, nxt)
    {
      LoadHolds(history, start, p - 1, b);
      LoadHolds(history, cur, nxt, b);
      LoadHolds(history, start, nxt, b);
    }
  }

  /** Everything before `p` has been loaded; what the remaining slices add is the rest of the window. */
  lemma {:induction false} CutMerges(history: seq<Bar>, start: int, p: int, cur: int, end: int, step: int)
    requires Ordered(history) && DistinctKeys(history) && step >= 1
    requires start <= cur <= end && cur <= p <= cur + 1
    ensures Unseen(Keys(Load(history, start, p - 1)), LoadAll(history, Cut(cur, end, step))) == Load(history, p, end)
    decreases end - cur
  {
    var nxt := if cur + step >= end then end else cur + step;
    var rest := Cut(cur, end, step)[1..];
    FirstSlice(history, start, p, cur, nxt, LoadAll(history, rest));
    if nxt < end {
      CutMerges(history, start, nxt + 1, nxt, end, step);
      LoadSplits(history, p, nxt, end);
    }
  }

  lemma {:induction false} FirstSlice(history: seq<Bar>, start: int, p: int, cur: int, nxt: int, later: seq<Bar>)
    requires DistinctKeys(history) && start <= cur <= p <= cur + 1 && cur <= nxt
    ensures Unseen(Keys(Load(history, start, p - 1)), Load(history, cur, nxt) + later)
            == Load(history, p, nxt) + Unseen(Keys(Load(history, start, nxt)), later)
  {
    var seen := Keys(Load(history, start, p - 1));
    forall b | b in history && cur <= b.time <= nxt
      ensures KeyOf(b) in seen <==> b.time < p
    {
      KeyOfLoad(history, start, p - 1, b);
    }
    SliceLeaves(history, cur, nxt, p, seen);
    UnseenConcat(seen, Load(history, cur, nxt), later);
    KeysGrow(history, start, p, cur, nxt);
  }

  lemma {:induction false} ChunkedIsWhole(history: seq<Bar>, start: int, end: int, step: int)
    requires Ordered(history) && DistinctKeys(history) && step >= 1
    ensures Unseen({}, LoadAll(history, Slices(start, end, step))) == Load(history, start, end)
  {
    if start <= end {
      LoadEmpty(history, start, start - 1);
      assert Keys([]) == {};
      CutMerges(history, start, start, start, end, step);
    } else {
      LoadEmpty(history, start, end);
    }
  }

  // ---------------------------------------------------------------- when it fails

  lemma {:induction false} UnseenFresh(seen: set<BarKey>, bars: seq<Bar>)
    ensures DistinctKeys(Unseen(seen, bars))
    ensures forall b :: b in Unseen(seen, bars) ==> KeyOf(b) !in seen
    decreases |bars|
  {
    if bars != [] {
      if KeyOf(bars[0]) in seen {
        UnseenFresh(seen, bars[1..]);
      } else {
        var next := seen + {KeyOf(bars[0])};
        UnseenFresh(next, bars[1..]);
        var tail := Unseen(next, bars[1..]);
        forall i, j | 0 <= i < j < |tail| + 1
          ensures KeyOf(([bars[0]] + tail)[i]) != KeyOf(([bars[0]] + tail)[j])
        {
          assert tail[j - 1] in tail;
        }
      }
    }
  }

  /** A window that holds every bar. */
  lemma {:induction false} Bounds(history: seq<Bar>) returns (lo: int, hi: int)
    ensures lo <= hi && forall j :: 0 <= j < |history| ==> lo <= history[j].time <= hi
  {
    lo, hi := 0, 0;
    if history != [] {
      lo, hi := Bounds(history[1..]);
      var t := history[0].time;
      lo, hi := if t < lo then t else lo, if t > hi then t else hi;
    }
  }

  lemma {:induction false} LoadEverything(history: seq<Bar>, lo: int, hi: int)
    requires forall j :: 0 <= j < |history| ==> lo <= history[j].time <= hi
    ensures Load(history, lo, hi) == history
  {
    if history != [] {
      LoadEverything(history[1..], lo, hi);
    }
  }

  /** Chunked loading answers every window as one load would. */
  ghost predicate ChunksFaithfully(history: seq<Bar>, step: int) {
    forall start, end :: Unseen({}, LoadAll(history, Slices(start, end, step))) == Load(history, start, end)
  }

  lemma {:induction false} FaithfulIsDistinct(history: seq<Bar>, step: int)
    requires ChunksFaithfully(history, step)
    ensures DistinctKeys(history)
  {
    var lo, hi := Bounds(history);
    LoadEverything(history, lo, hi);
    assert Unseen({}, LoadAll(history, Slices(lo, hi, step))) == Load(history, lo, hi);
    UnseenFresh({}, LoadAll(history, Slices(lo, hi, step)));
  }

  lemma {:induction false} LoadKeepsOrder(history: seq<Bar>, lo: int, hi: int, i: nat, j: nat) returns (x: nat, y: nat)
    requires i < j < |history| && lo <= history[i].time <= hi && lo <= history[j].time <= hi
    ensures x < y < |Load(history, lo, hi)|
    ensures Load(history, lo, hi)[x] == history[i] && Load(history, lo, hi)[y] == history[j]
  {
    var rest := history[1..];
    if i > 0 {
      x, y := LoadKeepsOrder(rest, lo, hi, i - 1, j - 1);
      if lo <= history[0].time <= hi {
        x, y := x + 1, y + 1;
      }
    } else {
      LoadHolds(rest, lo, hi, rest[j - 1]);
      var k :| 0 <= k < |Load(rest, lo, hi)| && Load(rest, lo, hi)[k] == rest[j - 1];
      x, y := 0, k + 1;
    }
  }

  lemma {:induction false} UnseenHolds(seen: set<BarKey>, bars: seq<Bar>, b: Bar)
    ensures b in Unseen(seen, bars) ==> b in bars
    ensures b in bars && KeyOf(b) !in seen ==> KeyOf(b) in Keys(Unseen(seen, bars))
    decreases |bars|
  {
    if bars != [] {
      assert bars == [bars[0]] + bars[1..];
      if KeyOf(bars[0]) in seen {
        UnseenHolds(seen, bars[1..], b);
      } else {
        UnseenHolds(seen + {KeyOf(bars[0])}, bars[1..], b);
        assert bars[0] in Unseen(seen, bars);
      }
    }
  }

  /** The window that cuts between a late bar and the earlier bar listed after it. */
  lemma {:induction false} CutReorders(history: seq<Bar>, step: int, i: nat, j: nat)
    requires DistinctKeys(history) && step >= 1
    requires i < j < |history| && history[i].time > history[j].time
    ensures var start, end := history[j].time - step, history[i].time;
            Unseen({}, LoadAll(history, Slices(start, end, step))) != Load(history, start, end)
  {
    var late, early := history[i], history[j];
    var start := early.time - step;
    var whole := Load(history, start, late.time);
    var rest := Cut(start, late.time, step)[1..];
    var part := Load(history, start, early.time);
    var merged := Unseen({}, LoadAll(history, Slices(start, late.time, step)));
    var head := Unseen({}, part);
    UnseenConcat({}, part, LoadAll(history, rest));
    assert head <= merged;
    if merged == whole {
      var x, y := LoadKeepsOrder(history, start, late.time, i, j);
      UnseenFresh({}, LoadAll(history, Slices(start, late.time, step)));
      var z := EarlyInHead(history, part, start, early);
      assert merged[z] == early == merged[y];
      assert z == y;
      assert head[x] == late;
      UnseenHolds({}, part, late);
      LoadHolds(history, start, early.time, late);
      assert false;
    }
  }

  lemma {:induction false} EarlyInHead(history: seq<Bar>, part: seq<Bar>, start: int, early: Bar) returns (z: nat)
    requires DistinctKeys(history) && early in history && start <= early.time
    requires part == Load(history, start, early.time)
    ensures z < |Unseen({}, part)| && Unseen({}, part)[z] == early
  {
    LoadHolds(history, start, early.time, early);
    UnseenHolds({}, part, early);
    var b :| b in Unseen({}, part) && KeyOf(b) == KeyOf(early);
    UnseenHolds({}, part, b);
    LoadHolds(history, start, early.time, b);
    var i :| 0 <= i < |history| && history[i] == b;
    var j :| 0 <= j < |history| && history[j] == early;
    assert i == j;
    z :| 0 <= z < |Unseen({}, part)| && Unseen({}, part)[z] == b;
  }

  /** Exactly the histories with distinct keys, listed in time order, are merged faithfully. */
  lemma {:induction false} MergeTheorem(history: seq<Bar>, step: int)
    requires step >= 1
    ensures ChunksFaithfully(history, step) <==> Ordered(history) && DistinctKeys(history)
  {
    if ChunksFaithfully(history, step) {
      FaithfulIsDistinct(history, step);
      forall i, j | 0 <= i < j < |history|
        ensures history[i].time <= history[j].time
      {
        if history[i].time > history[j].time {
          CutReorders(history, step, i, j);
          assert false;
        }
      }
    } else if Ordered(history) && DistinctKeys(history) {
      forall start, end
        ensures Unseen({}, LoadAll(history, Slices(start, end, step))) == Load(history, start, end)
      {
        ChunkedIsWhole(history, start, end, step);
      }
    }
  }

  // ---------------------------------------------------------------- tables

  /** A sum that fits is given, one that does not is refused, on either side. */
  lemma {:induction false} CheckedAddTable(a: i32, b: i32)
    ensures var sum := a as int + b as int;
            CheckedAdd(a, b).None? <==> sum > 2147483647 || sum < -2147483648
    ensures CheckedAdd(a, b).Some? ==> CheckedAdd(a, b).value as int == a as int + b as int
  {
  }

  /** A bar is known by its marker, and by its time stamp only when it has none. */
  lemma {:induction false} BarKeyTable(a: Bar, b: Bar)
    ensures KeyOf(a) == KeyOf(b) <==>
            a.marker == b.marker && (a.marker.None? ==> a.tsEventNs == b.tsEventNs)
  {
  }

  /** The wire's bar types are 1 to 4, and nothing else. */
  lemma {:induction false} BarTypeTable(wire: i32)
    ensures ParseTimeBarType(wire) == Ok(SecondBar) <==> wire == 1
    ensures ParseTimeBarType(wire) == Ok(MinuteBar) <==> wire == 2
    ensures ParseTimeBarType(wire) == Ok(DailyBar) <==> wire == 3
    ensures ParseTimeBarType(wire) == Ok(WeeklyBar) <==> wire == 4
    ensures ParseTimeBarType(wire).Err? ==> ParseTimeBarType(wire).error == wire
  {
  }

  /** Seconds per slice: two hours, 40, 90 or 180 days, or a quarter of the largest 32-bit number. */
  lemma {:induction false} SliceTable(barType: int, period: int)
    ensures barType == 1 ==> BarSliceSecs(barType, period) == 7200
    ensures barType == 2 && period < 15 ==> BarSliceSecs(barType, period) == 3456000
    ensures barType == 2 && 15 <= period < 60 ==> BarSliceSecs(barType, period) == 7776000
    ensures barType == 2 && period >= 60 ==> BarSliceSecs(barType, period) == 15552000
    ensures barType == 3 || barType == 4 ==> BarSliceSecs(barType, period) == 536870911
    ensures barType < 1 || barType > 4 ==> BarSliceSecs(barType, period) == 3456000
  {
  }
}
